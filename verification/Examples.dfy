/** A smallest pack, scenario and conversations: what the run theorems assume can be met. */
module Examples {
  import opened Common
  import opened Content
  import opened Ledgers
  import opened LedgerOperations
  import opened Ladders
  import opened Questions
  import opened Turns
  import opened Lessons
  import opened LifeContent
  import Home = HomeEngine
  import HomeRuns
  import HomeSpeech
  import Life = LifeEngine
  import opened WritableValues
  import LifeRuns
  import LifeScripts
  import LifeFailures
  import LifeProgress

  const ANSWER := TargetKey(FactTarget, "answer")
  const METHOD := TargetKey(RelationTarget, "method")
  const THREE := Number(IntNum(3), None)
  const FOUR := Number(IntNum(4), None)

  /** A second correct choice, where the answer may also be four. */
  function Alternative(acceptance: Acceptance): seq<Choice> {
    if acceptance == LifeFact([FOUR]) then [Choice("b", false, Effect(true, [("answer", FOUR)], []))] else []
  }

  /** One fact and one relation, both required, a hidden fact nobody asks about, and the relation noted along with those
      of `side`; `acceptance` makes it a home or a life pack. */
  function Sample(acceptance: Acceptance, side: seq<string>): TaskPack {
    var answer, how := Target(ANSWER, Answer), Target(METHOD, ReasonOrMethod);
    var notes := ["method"] + side;
    TaskPack(
      Binding("sample", 1, "digest"),
      map["answer" := Fact(THREE, acceptance, false, false, true),
        "spare" := Fact(THREE, acceptance, false, false, true)],
      Elements(notes),
      ["answer"], ["method"],
      QuestionPlan("open", [answer, how]),
      [QuestionPlan("l3.answer", [answer]), QuestionPlan("l3.method", [how])],
      [L2Plan("l2.method", how, "ask.method", [Choice("m", false, Effect(true, [], Dedup(["method"] + notes)))]),
       L2Plan("l2.answer", answer, "ask.answer",
        [Choice("a", false, Effect(true, [("answer", THREE)], []))] + Alternative(acceptance))],
      [CopySlot("help", InitialHelp, [answer]), CopySlot("ask.answer", L2Question, [answer]),
        CopySlot("ask.method", L2Question, [how]),
       CopySlot("intro", L0Intro, [answer]), CopySlot("act", L0Action, [answer])],
      [JointFact("answer", THREE), JointRelation("method")],
      notes, Elements(notes), L4)
  }

  lemma SampleNotes(acceptance: Acceptance, side: seq<string>)
    ensures var p := Sample(acceptance, side);
            && p.ValidNotes() && "method" in p.relations
            && Elements(Dedup(["method"] + p.noteRelations)) == p.relations
  {
    var notes := ["method"] + side;
    assert notes[0] in notes;
    assert Elements(["method"] + notes) == Elements(notes);
  }

  lemma SampleCovers(acceptance: Acceptance, side: seq<string>)
    ensures var p := Sample(acceptance, side);
            p.ValidCompletion() && p.ValidNotes() && p.Required() == {ANSWER, METHOD}
  {
    SampleNotes(acceptance, side);
  }

  lemma SampleAsks(acceptance: Acceptance, side: seq<string>)
    ensures Sample(acceptance, side).ValidQuestions()
  {
    SampleCovers(acceptance, side);
    var p := Sample(acceptance, side);
    hide TaskPack.Required;
    assert p.initial.targets[0].key == ANSWER && p.initial.targets[1].key == METHOD;
    assert (set t | t in p.initial.targets :: t.key) == {ANSWER, METHOD} by {
      assert p.initial.targets[0] in p.initial.targets && p.initial.targets[1] in p.initial.targets;
    }
    assert p.l3Plans[0] in p.l3Plans && p.l3Plans[1] in p.l3Plans && p.l2Plans[0] in p.l2Plans
           && p.l2Plans[1] in p.l2Plans;
  }

  lemma SampleHasSlots(acceptance: Acceptance, side: seq<string>)
    ensures Sample(acceptance, side).ValidSlots()
  {
    var slots := Sample(acceptance, side).copySlots;
    assert slots[0] in slots && slots[1] in slots && slots[2] in slots && slots[3] in slots && slots[4] in slots;
  }

  lemma SampleHasChoices(acceptance: Acceptance, side: seq<string>)
    ensures Sample(acceptance, side).ValidChoices()
  {
    hide Dedup, TaskPack.ValidEffect;
    var p := Sample(acceptance, side);
    var m, a := p.l2Plans[0].choices, p.l2Plans[1].choices;
    assert a[0] in a && m[0] in m;
    MethodIsValid(acceptance, side);
    AnswersAreValid(acceptance, side);
  }

  lemma AnswersAreValid(acceptance: Acceptance, side: seq<string>)
    ensures var p := Sample(acceptance, side);
            forall c | c in p.l2Plans[1].choices :: p.ValidEffect(ANSWER, c.effect)
  {
    hide Dedup;
    var p := Sample(acceptance, side);
    var a := p.l2Plans[1].choices;
    assert a[0].effect.facts[0] in a[0].effect.facts;
    assert SameValue(THREE, THREE);
    if acceptance == LifeFact([FOUR]) {
      var more := Alternative(acceptance)[0].effect;
      assert more.facts[0] in more.facts;
      assert [FOUR][0] in [FOUR] && p.ValidEffect(ANSWER, more);
    }
  }

  lemma MethodIsValid(acceptance: Acceptance, side: seq<string>)
    ensures var p := Sample(acceptance, side); p.ValidEffect(METHOD, p.l2Plans[0].choices[0].effect)
  {
    SampleNotes(acceptance, side);
    var p := Sample(acceptance, side);
    var shown := p.l2Plans[0].choices[0].effect.relations;
    assert shown == Dedup(["method"] + p.noteRelations);
    forall r ensures r in shown <==> r in p.relations {
      assert r in shown <==> r in Elements(shown);
    }
    hide Dedup;
  }

  lemma SampleHasJoint(acceptance: Acceptance, side: seq<string>)
    ensures Sample(acceptance, side).ValidJoint()
  {
    SampleCovers(acceptance, side);
    var p := Sample(acceptance, side);
    hide TaskPack.Required;
    assert p.joint[0] in p.joint && p.joint[1] in p.joint;
    assert SameValue(THREE, THREE);
    assert (set c | c in p.joint :: c.Covers()) == {ANSWER, METHOD};
  }

  lemma SampleAgrees(acceptance: Acceptance, side: seq<string>)
    ensures Sample(acceptance, side).ValidQuestions()
    ensures AsksAgree(Sample(acceptance, side)) && DistinctKeys(Sample(acceptance, side).initial.targets)
  {
    SampleAsks(acceptance, side);
    var p := Sample(acceptance, side);
    assert p.l3Plans[0] in p.l3Plans && p.l3Plans[1] in p.l3Plans;
  }

  lemma SampleIsValid(acceptance: Acceptance, side: seq<string>)
    ensures Sample(acceptance, side).Valid()
  {
    SampleCovers(acceptance, side);
    SampleAsks(acceptance, side);
    SampleHasSlots(acceptance, side);
    SampleHasChoices(acceptance, side);
    SampleHasJoint(acceptance, side);
  }

  lemma SampleIsHomely(side: seq<string>)
    ensures var p := Sample(HomeFact, side);
            && p.UniquePlanIds() && |p.initial.targets| <= 4 && (forall r | r in p.noteRelations :: r in p.h3Relations)
            && Home.HelpsOnce(p) && Home.HomeChoices(p)
  {
    SampleCovers(HomeFact, side);
    hide Dedup, TaskPack.Required;
  }

  lemma SampleIsHomePack(side: seq<string>)
    ensures Home.HomeValid(Sample(HomeFact, side)) && AsksAgree(Sample(HomeFact, side))
  {
    hide Sample, TaskPack.Valid, AsksAgree, DistinctKeys, Home.HelpsOnce, Home.HomeChoices;
    SampleIsValid(HomeFact, side);
    SampleAgrees(HomeFact, side);
    SampleIsHomely(side);
  }

  /** A child who starts at joint work and submits the pinned values: one turn, and the home run ends SUPPORTED. */
  lemma JointRun(pack: TaskPack) returns (states: seq<Home.State>, turns: seq<Turn>)
    requires Home.HomeValid(pack) && AsksAgree(pack)
    ensures HomeRuns.RunFromStart(pack, L0, states, turns) && |turns| == 1
    ensures states[1].completed && states[1].outcome == Some(Home.Supported)
  {
    Home.ValidAsksOne(pack);
    hide Home.HomeValid, Ask, Home.NextState, HomeRuns.Inv, AsksAgree, Home.Initial, CompletionValues,
         HomeRuns.RunFromStart, LadderOk, HomeRuns.QuestionBound;
    var start := HomeStart(pack, L0);
    HomeRuns.InitialSatisfiesInv(pack, L0);
    HomeRuns.InitialShape(pack, L0);
    var values := CompletionValues(pack.joint);
    HomeRuns.JointActionCompletes(pack, start, "t1", values);
    ValuesAreEmitted(pack, start.ledger);
    states, turns := OneTurnRun(pack, L0, start, Turn.Turn("t1", Action(values)));
  }

  lemma OneTurnRun(pack: TaskPack, level: ExpressionLevel, start: Home.State, t: Turn)
      returns (states: seq<Home.State>, turns: seq<Turn>)
    requires Home.HomeValid(pack) && Home.Initial(pack, level) == Ok(start) && !start.completed
    requires Home.NextState(pack, start, t).Ok?
    ensures HomeRuns.RunFromStart(pack, level, states, turns) && |turns| == 1
    ensures states[1] == Home.NextState(pack, start, t).value
  {
    hide Home.HomeValid, Home.Initial, Home.NextState;
    Home.ValidAsksOne(pack);
    states, turns := [start, Home.NextState(pack, start, t).value], [t];
  }

  lemma ValuesAreEmitted(pack: TaskPack, l: Ledger)
    requires Home.HomeValid(pack)
    ensures Ask(pack, false, L0, l).Some?
    ensures Ask(pack, false, L0, l).value.completionValues == CompletionValues(pack.joint)
  {
    hide Ask;
    HomeRuns.JointQuestion(pack, l);
  }

  lemma HomeStart(pack: TaskPack, level: ExpressionLevel) returns (s: Home.State)
    requires Home.HomeValid(pack) && AsksAgree(pack)
    ensures Home.Initial(pack, level) == Ok(s)
  {
    HomeRuns.EmptyLedgerIsOpen(pack);
    LifeProgress.IncompleteRemains(pack, EmptyLedger(pack));
    HomeRuns.QuestionExists(pack, level, EmptyLedger(pack));
    hide Home.HomeValid, Ask, Remaining, Complete;
    s := Home.Initial(pack, level).value;
  }

  // ----- a child who teaches -----

  /** A direct turn from an empty ledger that completes the task and verifies every note relation ends the run
      TAUGHT. */
  lemma DirectFinish(pack: TaskPack, start: Home.State, t: Turn)
    requires Home.HomeValid(pack) && HomeRuns.Inv(pack, start) && !start.completed && start.ladder.hint == H0
    requires start.ledger == EmptyLedger(pack)
    requires Home.NextState(pack, start, t).Ok? && Home.NextState(pack, start, t).value.completed
    requires HomeRuns.NoteSet(pack) <= Home.NextState(pack, start, t).value.ledger.relations.Keys
    requires HomeRuns.SemanticsAt(pack, start, t).source == SonnetLow
    ensures Home.NextState(pack, start, t).value.outcome == Some(Home.Taught)
  {
    Home.ValidAsksOne(pack);
    hide Home.HomeValid, HomeRuns.Inv, HomeRuns.NoteSet, Home.NextState, HomeRuns.SemanticsAt;
    forall r | r in HomeRuns.NoteSet(pack) ensures r in Home.NextState(pack, start, t).value.childNotes {
      HomeRuns.StepCredits(pack, start, t, r);
    }
    HomeRuns.LastTurnDecides(pack, start, t);
  }

  lemma CompleteConcludes(pack: TaskPack, s: Home.State, t: Turn)
    requires forall p | p in pack.l3Plans :: |p.targets| == 1
    requires var r := Interpret(pack, s.ladder, s.subgoal, s.ledger, t); r.Ok? && r.value.applied.completion.Complete()
    ensures Home.NextState(pack, s, t).Ok? && Home.NextState(pack, s, t).value.completed
    ensures Home.NextState(pack, s, t).value.ledger
            == Interpret(pack, s.ladder, s.subgoal, s.ledger, t).value.applied.Ledger()
  {
    hide Interpret, Ask, Policy, Home.ChildNotes, Home.SupportedNotes;
  }

  /** The lesson of every required target completes the empty ledger and verifies the required relations. */
  lemma LessonCompletes(pack: TaskPack)
    requires pack.ValidCompletion()
    ensures var r := Apply(pack, EmptyLedger(pack), ClaimsFor(AllOthers(pack, {})), "t1");
            && r.Ok? && r.value.completion.Complete()
            && forall x | x in pack.requiredRelations :: x in r.value.Ledger().relations
  {
    var keys := AllOthers(pack, {});
    var l := EmptyLedger(pack);
    HomeRuns.EmptyLedgerIsOpen(pack);
    AllOthersAre(pack, {});
    hide Apply, ClaimsFor, AllOthers, Sound, Usable;
    LessonApplies(pack, l, keys, "t1");
    var a := Apply(pack, l, ClaimsFor(keys), "t1").value;
    LessonIsOpen(pack, l, keys, a);
    forall x | x in pack.requiredRelations ensures x in a.Ledger().relations {
      assert TargetKey(RelationTarget, x) in pack.Required() && TargetKey(RelationTarget, x) in Verified(a.Ledger());
    }
  }

  lemma NotesAreVerified(pack: TaskPack, l: Ledger)
    requires (forall r | r in pack.noteRelations :: r in pack.requiredRelations)
    requires forall r | r in pack.requiredRelations :: r in l.relations
    ensures HomeRuns.NoteSet(pack) <= l.relations.Keys
  {}

  /** In any home pack whose note relations are required, a child who explains everything at once at the start
      teaches it: one turn, and the run ends TAUGHT. */
  lemma TeachingRun(pack: TaskPack) returns (states: seq<Home.State>, turns: seq<Turn>)
    requires Home.HomeValid(pack) && AsksAgree(pack)
    requires forall r | r in pack.noteRelations :: r in pack.requiredRelations
    ensures HomeRuns.RunFromStart(pack, L4, states, turns) && |turns| == 1
    ensures states[1].completed && states[1].outcome == Some(Home.Taught)
  {
    Home.ValidAsksOne(pack);
    LessonCompletes(pack);
    hide Home.HomeValid, Ask, HomeRuns.Inv, AsksAgree, Home.Initial, Home.NextState, Apply, Interpret, HomeRuns.NoteSet,
         HomeRuns.RunFromStart, LadderOk, HomeRuns.QuestionBound, ClaimsFor, AllOthers, EmptyLedger, Said;
    var start := HomeStart(pack, L4);
    HomeRuns.InitialSatisfiesInv(pack, L4);
    HomeRuns.InitialShape(pack, L4);
    var g := ClaimsFor(AllOthers(pack, {}));
    var t := Said("t1", NoMove, g);
    SaidIsInterpreted(pack, start.ladder, start.subgoal, start.ledger, "t1", NoMove, g);
    CompleteConcludes(pack, start, t);
    NotesAreVerified(pack, Home.NextState(pack, start, t).value.ledger);
    DirectFinish(pack, start, t);
    states, turns := OneTurnRun(pack, L4, start, t);
  }

  /** The sample pack is one of those packs. */
  lemma SampleIsTaught() returns (states: seq<Home.State>, turns: seq<Turn>)
    ensures Home.HomeValid(Sample(HomeFact, [])) && HomeRuns.RunFromStart(Sample(HomeFact, []), L4, states, turns)
    ensures |turns| == 1 && states[1].outcome == Some(Home.Taught)
  {
    SampleIsHomePack([]);
    hide Home.HomeValid, AsksAgree, HomeRuns.RunFromStart;
    states, turns := TeachingRun(Sample(HomeFact, []));
  }

  // ----- a choice that shows too much -----

  const SIDE := ["n1", "n2", "n3", "n4", "n5", "n6", "n7", "n8"]

  lemma NineNotes()
    ensures |Elements(["method"] + (["method"] + SIDE))| == 9
  {
    var notes := ["method"] + SIDE;
    UniqueCardinality(notes);
    assert notes[0] in notes;
    assert Elements(["method"] + notes) == Elements(notes);
  }

  lemma MethodIsShown(side: seq<string>)
    ensures forall p | p in Sample(HomeFact, side).l3Plans :: |p.targets| == 1
    ensures ShownPlan(Sample(HomeFact, side), EmptyLedger(Sample(HomeFact, side)))
         == Some(Sample(HomeFact, side).l2Plans[0])
  {
    var pack := Sample(HomeFact, side);
    SampleCovers(HomeFact, side);
    hide TaskPack.Required;
    var how := pack.initial.targets[1];
    assert how in pack.initial.targets && how.key in Remaining(pack, EmptyLedger(pack));
    assert how in Questions.Select(pack.initial.targets, Remaining(pack, EmptyLedger(pack)));
    NoneTried(pack, Questions.Select(pack.initial.targets, Remaining(pack, EmptyLedger(pack))));
    assert ActiveTargets(pack, L2, EmptyLedger(pack)) == [how];
    assert how in [how] && Keys([how]) == {METHOD};
  }

  lemma {:induction false} NoneTried(pack: TaskPack, targets: seq<Target>)
    ensures FirstPartial(targets, EmptyLedger(pack)).None?
  {
    if targets != [] { NoneTried(pack, targets[1..]); }
  }

  /** A home pack with nine note relations: it loads, and a child who starts at L2 and picks the right method first has
      the turn rejected. */
  lemma CrowdedPickFails() returns (s: Home.State)
    ensures Home.HomeValid(Sample(HomeFact, SIDE)) && AsksAgree(Sample(HomeFact, SIDE))
    ensures forall p | p in Sample(HomeFact, SIDE).l3Plans :: |p.targets| == 1
    ensures Home.Initial(Sample(HomeFact, SIDE), L2) == Ok(s)
    ensures Home.NextState(Sample(HomeFact, SIDE), s, Turn.Turn("t1", Pick(["m"]))) == Err(SpeechRejected)
  {
    var pack := Sample(HomeFact, SIDE);
    SampleIsHomePack(SIDE);
    MethodIsShown(SIDE);
    hide Home.HomeValid, AsksAgree, Home.Initial, Home.NextState, HomeRuns.Inv, ShownPlan, LadderOk,
         HomeRuns.QuestionBound;
    s := HomeStart(pack, L2);
    HomeRuns.InitialSatisfiesInv(pack, L2);
    HomeRuns.InitialShape(pack, L2);
    assert HomeRuns.CorrectPick(pack, s.ledger, Turn.Turn("t1", Pick(["m"]))) by {
      var m := pack.l2Plans[0].choices;
      assert m[0] in m && m[0].choiceId == "m";
    }
    NotAnswered();
    HomeSpeech.UnansweredPickIsRejected(pack, s, Turn.Turn("t1", Pick(["m"])));
  }

  lemma NotAnswered()
    ensures var pack := Sample(HomeFact, SIDE); !HomeRuns.PickIsAnswered(pack, EmptyLedger(pack), METHOD)
  {
    var pack := Sample(HomeFact, SIDE);
    SampleCovers(HomeFact, SIDE);
    NineNotes();
    assert pack.noteRelations == ["method"] + SIDE;
    assert ANSWER in Remaining(pack, EmptyLedger(pack)) && ANSWER !in HomeRuns.Learnt(pack, METHOD);
    hide Sample, TaskPack.Required;
    var shown := Elements(["method"] + pack.noteRelations);
    assert shown - EmptyLedger(pack).relations.Keys == shown;
  }

  // ----- a scenario of two tasks -----

  /** Two tasks with the sample pack. The second task's variant is chosen by the first task's answer, which is mapped
      only if it is three; at the end a fact of the second task is reported. */
  function TwoTasks(alternatives: seq<Value>, reported: string): Scenario {
    var pack := Sample(LifeFact(alternatives), []);
    Scenario(n => if n == IntNum(3) then "3" else "other",
             [Stage("first", "only", map["only" := pack], None),
              Stage("second", "only", map["only" := pack], Some(Selector("first", "answer", map["3" := "only"])))],
             [ProjectFact("result", "second", reported)])
  }

  lemma SampleIsShort(alternatives: seq<Value>)
    ensures var p := Sample(LifeFact(alternatives), []);
            && ShortEffects(p) && |p.initial.targets| <= 4 && p.entryLevel == L4
            && forall f | f in p.facts :: p.facts[f].acceptance.LifeFact?
  {
    hide Dedup;
    DedupShortens(["method", "method"]);
    assert ["method"] + (["method"] + []) == ["method", "method"];
  }

  lemma SampleIsLifePack(alternatives: seq<Value>)
    ensures LifeValid(Sample(LifeFact(alternatives), [])) && Askable(Sample(LifeFact(alternatives), []))
  {
    hide Sample, TaskPack.Valid, AsksAgree, DistinctKeys, ShortEffects;
    SampleIsValid(LifeFact(alternatives), []);
    SampleAgrees(LifeFact(alternatives), []);
    SampleIsShort(alternatives);
  }

  lemma SampleHasFacts(acceptance: Acceptance, side: seq<string>)
    ensures Sample(acceptance, side).facts.Keys == {"answer", "spare"}
  {}

  lemma TwoTasksValid(alternatives: seq<Value>, reported: string)
    requires reported in {"answer", "spare"}
    ensures TwoTasks(alternatives, reported).Valid() && Asking(TwoTasks(alternatives, reported))
  {
    hide LifeValid, Askable, Sample;
    var sc := TwoTasks(alternatives, reported);
    SampleIsLifePack(alternatives);
    SampleHasFacts(LifeFact(alternatives), []);
    assert sc.Apart(0, 1);
    assert sc.stages[0] in sc.stages && sc.stages[1] in sc.stages;
    assert sc.ValidSelector(0);
    assert sc.ValidSelector(1) by {
      assert Feeds(sc.stages[0], sc.stages[1].selector.value);
    }
    assert sc.ValidProjection(sc.projections[0]);
  }

  lemma SampleRequires(acceptance: Acceptance, side: seq<string>)
    ensures Sample(acceptance, side).requiredFacts == ["answer"] && "answer" in Sample(acceptance, side).requiredFacts
  {}

  lemma OnlyThree(v: Value)
    requires Writable(Sample(LifeFact([]), []), "answer", v)
    ensures v == THREE
  {
    SampleHasChoices(LifeFact([]), []);
    SampleHasJoint(LifeFact([]), []);
    WritableIsAccepted(Sample(LifeFact([]), []), "answer", v);
  }

  lemma TwoTasksSelect(reported: string)
    ensures SelectorsSealed(TwoTasks([], reported))
  {
    var sc := TwoTasks([], reported);
    hide Writable, Sample;
    SampleRequires(LifeFact([]), []);
    forall k: nat, j: nat, pack | j < k < |sc.stages| && Selects(sc, k, j) && Enterable(sc, j, pack)
      ensures SelectorSealed(sc.show, sc.stages[k].selector.value, pack)
    {
      assert k == 1 && j == 0 && pack == Sample(LifeFact([]), []);
      forall v | Writable(pack, "answer", v) ensures LookupKey(sc.show, v) in sc.stages[1].selector.value.variants {
        OnlyThree(v);
      }
    }
  }

  lemma SecondPack(alternatives: seq<Value>, reported: string, pack: TaskPack)
    requires Enterable(TwoTasks(alternatives, reported), 1, pack)
    ensures pack == Sample(LifeFact(alternatives), [])
  {
    hide Sample, Writable;
  }

  lemma AnswerIsReported()
    ensures ProjectionsSealed(TwoTasks([], "answer"))
  {
    var sc := TwoTasks([], "answer");
    hide Enterable, Sample;
    SampleRequires(LifeFact([]), []);
    forall p, i: nat, pack | p in sc.projections && i < |sc.stages| && sc.stages[i].taskId == p.task
      && Enterable(sc, i, pack)
      ensures Covered(pack, p)
    {
      SecondPack([], "answer", pack);
    }
  }

  /** A sealed scenario, and a conversation through it to its end. */
  lemma TwoTasksFinish() returns (s: Life.LifeState)
    ensures TwoTasks([], "answer").Valid() && Sealed(TwoTasks([], "answer"))
    ensures LifeScripts.Reached(TwoTasks([], "answer"), s) && s.completed && LifeRuns.Inv(TwoTasks([], "answer"), s)
  {
    hide *;
    var sc := TwoTasks([], "answer");
    TwoTasksValid([], "answer");
    TwoTasksSelect("answer");
    AnswerIsReported();
    SealedIs(sc);
    s := LifeFailures.SealedCanFinish(sc);
    LifeScripts.ReachedIsGood(sc, s);
  }

  lemma SealedIs(sc: Scenario)
    requires sc.Valid() && Asking(sc) && SelectorsSealed(sc) && ProjectionsSealed(sc)
    ensures Sealed(sc)
  {}

  lemma FourIsWritable()
    ensures Writable(Sample(LifeFact([FOUR]), []), "answer", FOUR)
  {
    var pack := Sample(LifeFact([FOUR]), []);
    var q := pack.l2Plans[1];
    assert PickedPlan(pack, q) == q;
    assert q.choices[1] in q.choices && q.choices[1].effect.facts[0] in q.choices[1].effect.facts;
    assert PickWrites(pack, q, "answer", FOUR);
  }

  lemma FourIsNotMapped()
    ensures !SelectorsSealed(TwoTasks([FOUR], "answer"))
  {
    var sc := TwoTasks([FOUR], "answer");
    var pack := Sample(LifeFact([FOUR]), []);
    FourIsWritable();
    hide Writable, Sample;
    assert Selects(sc, 1, 0) && Enterable(sc, 0, pack);
    assert LookupKey(sc.show, FOUR) == "other";
    assert !SelectorSealed(sc.show, sc.stages[1].selector.value, pack);
  }

  /** A scenario that loads, and a conversation in which the second task's variant is missing: the reviewed alternative
      answer is picked, and not mapped. */
  lemma UnmappedAnswerFails()
    ensures TwoTasks([FOUR], "answer").Valid() && LifeScripts.CanFail(TwoTasks([FOUR], "answer"), Life.SelectorFailed)
  {
    hide *;
    TwoTasksValid([FOUR], "answer");
    FourIsNotMapped();
    LifeFailures.SelectorCanFailIff(TwoTasks([FOUR], "answer"));
  }

  lemma SpareIsNotReported()
    ensures !ProjectionsSealed(TwoTasks([], "spare"))
  {
    var sc := TwoTasks([], "spare");
    var pack := Sample(LifeFact([]), []);
    assert sc.projections[0] in sc.projections && !Covered(pack, sc.projections[0]);
    assert Writable(pack, "answer", THREE);
    hide Writable, Sample;
    assert Enterable(sc, 0, pack);
    assert Leads(sc.show, sc.stages[1].selector.value, THREE, sc.stages[1], pack);
    assert Enterable(sc, 1, pack);
  }

  /** A scenario that loads, and a conversation that fails at its report: a hidden fact that no task asks about. */
  lemma UnaskedReportFails()
    ensures TwoTasks([], "spare").Valid() && LifeScripts.CanFail(TwoTasks([], "spare"), Life.ProjectionFailed)
  {
    hide *;
    TwoTasksValid([], "spare");
    TwoTasksSelect("spare");
    SpareIsNotReported();
    LifeFailures.ProjectionCanFailIff(TwoTasks([], "spare"));
  }
}
