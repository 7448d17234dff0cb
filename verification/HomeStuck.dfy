/** Home packs whose questions disagree really do get stuck: one turn of speech suffices. */
module HomeStuck {
  import opened Common
  import opened Content
  import opened Ledgers
  import opened LedgerOperations
  import opened Ladders
  import opened Questions
  import opened Turns
  import opened HomeEngine
  import opened HomeRuns
  import opened Lessons

  /** In a pack whose questions agree no turn of a reachable open state ever fails for want of a question. */
  lemma NeverWithoutQuestion(pack: TaskPack, s: State, t: Turn)
    requires HomeValid(pack) && Inv(pack, s) && !s.completed && AsksAgree(pack)
    ensures NextState(pack, s, t) != Err(NoQuestion)
  {
    hide HomeValid, Inv, Interpret, Conclude, AsksAgree, Sound, WellFormed, BoundTo;
    ValidAsksOne(pack);
    InvParts(pack, s);
    InterpretFailsOtherwise(pack, s, t);
    if Interpret(pack, s.ladder, s.subgoal, s.ledger, t).Ok? {
      InterpretIsSound(pack, s.ladder, s.subgoal, s.ledger, t);
      ConcludesWithQuestion(pack, s, Interpret(pack, s.ladder, s.subgoal, s.ledger, t).value);
    }
  }

  lemma InvParts(pack: TaskPack, s: State)
    requires HomeValid(pack) && Inv(pack, s)
    ensures Usable(pack, s.ledger) && pack.ValidQuestions() && pack.ValidSlots()
  {}

  lemma ConcludesWithQuestion(pack: TaskPack, s: State, sem: Semantics)
    requires pack.ValidQuestions() && pack.ValidSlots() && AsksAgree(pack) && Sound(pack, s.ledger, sem.applied)
    requires !s.completed
    ensures Conclude(pack, s, sem) != Err(NoQuestion)
  {
    hide TaskPack.ValidSlots, Policy, SpeechFailure, Ask, AsksAgree, ChildNotes,
         SupportedNotes, Sound, Remaining;
    if !sem.applied.completion.Complete() {
      OpenRemains(pack, s.ledger, sem.applied);
      QuestionExists(pack, Policy(s.ladder, sem).expression, sem.applied.Ledger());
    }
  }

  lemma OpenRemains(pack: TaskPack, l: Ledger, a: Applied)
    requires Sound(pack, l, a) && !a.completion.Complete()
    ensures Remaining(pack, a.Ledger()) != {}
  {
    hide Grown, BoundTo, CompletionOf;
    EmptyDifference(pack.Required(), Verified(a.Ledger()));
  }

  lemma InterpretFailsOtherwise(pack: TaskPack, s: State, t: Turn)
    requires forall p | p in pack.l3Plans :: |p.targets| == 1
    ensures Interpret(pack, s.ladder, s.subgoal, s.ledger, t) != Err(NoQuestion)
  {
    hide Apply, ApplyStructured, ActiveL2Plan, CompletionOf;
  }

  /** The whole lesson but one target, from the empty ledger: it applies, and that target alone remains. */
  lemma AllButOneApplies(pack: TaskPack, skip: Key) returns (g: Guarded)
    requires pack.ValidCompletion() && skip in pack.Required()
    ensures var r := Apply(pack, EmptyLedger(pack), g, "t1");
            && r.Ok? && Remaining(pack, r.value.Ledger()) == {skip}
            && (pack.Required() != {skip} ==> r.value.NewCanonical())
  {
    hide Apply, ClaimsFor, AllOthers, TaskPack.Required, TaskPack.ValidCompletion, Remaining, Teaches, Sound, Verified,
         Usable;
    var keys := AllOthers(pack, {skip});
    var l := EmptyLedger(pack);
    EmptyLedgerIsOpen(pack);
    AllOthersAre(pack, {skip});
    g := ClaimsFor(keys);
    LessonApplies(pack, l, keys, "t1");
    var a := Apply(pack, l, g, "t1").value;
    TaughtRemains(pack, l, keys, a.Ledger());
    NothingSaidYet(pack);
    if pack.Required() != {skip} {
      var k :| k in pack.Required() && k != skip;
      TaughtVerifies(pack, l, keys, a.Ledger(), k);
      NothingVerified(pack);
      VerifiedIsNews(pack, l, a, k);
    }
  }

  lemma TaughtVerifies(pack: TaskPack, l: Ledger, keys: seq<Key>, m: Ledger, k: Key)
    requires Teaches(pack, l, keys, m) && k in keys
    ensures k in Verified(m)
  {}

  lemma NothingVerified(pack: TaskPack)
    ensures Verified(EmptyLedger(pack)) == {}
  {}

  // ----- the stuck turn -----

  lemma NewsKeepsL4(l: Ladder, sem: Semantics)
    requires l.expression == L4 && sem.source == SonnetLow && sem.applied.NewCanonical() && !sem.AsksForSupport()
    ensures Policy(l, sem).expression == L4
  {}

  lemma WithoutQuestionFails(pack: TaskPack, s: State, t: Turn)
    requires (forall p | p in pack.l3Plans :: |p.targets| == 1) && !s.completed
    requires Interpret(pack, s.ladder, s.subgoal, s.ledger, t).Ok?
    requires var sem := Interpret(pack, s.ladder, s.subgoal, s.ledger, t).value;
             && !sem.applied.completion.Complete()
             && Ask(pack, false, Policy(s.ladder, sem).expression, sem.applied.Ledger()).None?
    ensures NextState(pack, s, t) == Err(NoQuestion)
  {
    hide Interpret, Ask, Policy, ChildNotes, SupportedNotes;
  }

  lemma OnlyTargetSticks(pack: TaskPack, t: Target)
    requires HomeValid(pack) && Unmatched(pack, t) && pack.Required() == {t.key}
    ensures Initial(pack, L4) == Err(NoQuestion)
  {
    hide HomeValid, Unmatched, Ask, TaskPack.Required, Remaining;
    ValidAsksOne(pack);
    NothingSaidYet(pack);
    UnmatchedSticks(pack, t, EmptyLedger(pack));
  }

  lemma LessonSticks(pack: TaskPack, s: State, t: Target, g: Guarded)
    requires HomeValid(pack) && Unmatched(pack, t) && WellFormed(s.ledger) && s.ladder.expression == L4 && !s.completed
    requires var r := Apply(pack, s.ledger, g, "t1");
             r.Ok? && Remaining(pack, r.value.Ledger()) == {t.key} && r.value.NewCanonical()
    ensures NextState(pack, s, Said("t1", NoMove, g)) == Err(NoQuestion)
  {
    hide HomeValid, Unmatched, Ask, Policy, Apply, Interpret, NextState, Remaining, WellFormed, Said;
    ValidAsksOne(pack);
    SaidIsInterpreted(pack, s.ladder, s.subgoal, s.ledger, "t1", NoMove, g);
    var sem := Interpret(pack, s.ladder, s.subgoal, s.ledger, Said("t1", NoMove, g)).value;
    NewsKeepsL4(s.ladder, sem);
    UnmatchedSticks(pack, t, sem.applied.Ledger());
    StillOpen(pack, s, g, t.key);
    WithoutQuestionFails(pack, s, Said("t1", NoMove, g));
  }

  /** A pack whose questions disagree fails for want of a question at once: either its first L4 question is missing, or
      a child who says everything but the one target leaves the engine without one. */
  lemma DisagreementFailsATurn(pack: TaskPack)
    requires HomeValid(pack) && !AsksAgree(pack)
    ensures || Initial(pack, L4) == Err(NoQuestion)
            || (Initial(pack, L4).Ok? && exists t :: NextState(pack, Initial(pack, L4).value, t) == Err(NoQuestion))
  {
    ValidAsksOne(pack);
    var t :| t in pack.initial.targets && Unmatched(pack, t);
    hide HomeValid, Unmatched, AsksAgree, Apply, NextState, TaskPack.Required, Initial, Remaining, WellFormed,
         LadderOk, QuestionBound;
    TargetIsRequired(pack, t);
    var g := AllButOneApplies(pack, t.key);
    if pack.Required() == {t.key} {
      OnlyTargetSticks(pack, t);
    } else if Initial(pack, L4).Ok? {
      InitialShape(pack, L4);
      assert WellFormed(EmptyLedger(pack)) by { EmptyLedgerIsOpen(pack); }
      LessonSticks(pack, Initial(pack, L4).value, t, g);
    } else {
      InitialFailsWithoutQuestion(pack);
    }
  }

  lemma TargetIsRequired(pack: TaskPack, t: Target)
    requires HomeValid(pack) && t in pack.initial.targets
    ensures t.key in pack.Required() && pack.ValidCompletion()
  {
    assert t.key in (set x | x in pack.initial.targets :: x.key);
  }

  lemma NothingSaidYet(pack: TaskPack)
    ensures Remaining(pack, EmptyLedger(pack)) == pack.Required()
  {}

  lemma InitialFailsWithoutQuestion(pack: TaskPack)
    requires (forall p | p in pack.l3Plans :: |p.targets| == 1) && Initial(pack, L4).Err?
    ensures Initial(pack, L4) == Err(NoQuestion)
  {
    hide Ask;
  }

  lemma StillOpen(pack: TaskPack, s: State, g: Guarded, k: Key)
    requires WellFormed(s.ledger) && Apply(pack, s.ledger, g, "t1").Ok?
    requires Remaining(pack, Apply(pack, s.ledger, g, "t1").value.Ledger()) == {k}
    ensures !Apply(pack, s.ledger, g, "t1").value.completion.Complete()
  {
    hide Apply, BoundTo, Grown, CompletionOf;
    ApplyIsSound(pack, s.ledger, g, "t1");
    EmptyDifference(pack.Required(), Verified(Apply(pack, s.ledger, g, "t1").value.Ledger()));
  }

  // ----- the unanswerable turn -----

  /** What the child's half method with a request to Mormi means. */
  function HalfSemantics(r: string, a: Applied): Semantics {
    SaidSemantics(RequestMormiAnswer, HalfClaim(r), a)
  }

  lemma HalfIsUnanswerable(ladder: Ladder, r: string, a: Applied)
    requires LadderOk(ladder) && ladder.hint == H0 && !a.NewCanonical() && a.NewPartial()
    ensures var sem := HalfSemantics(r, a);
            && Unanswerable(ladder, sem) && Proper(ladder, sem) && Policy(ladder, sem).expression in {L3, L2}
  {
    hide HalfClaim;
  }

  lemma SpeechErrorIs(pack: TaskPack, before: Ladder, sem: Semantics, asked: seq<Target>, copied: bool)
    requires LadderOk(before) && Proper(before, sem) && !sem.initialHelp && DistinctKeys(asked) && 1 <= |asked| <= 4
    requires forall t | t in asked :: pack.Known(t.key)
    requires SpeechFailure(pack, Policy(before, sem), sem, asked, before.hint, copied).Some?
    ensures SpeechFailure(pack, Policy(before, sem), sem, asked, before.hint, copied)
         == Some(if Unanswerable(before, sem) then PlanRejected else SpeechRejected)
  {
    hide Policy, Unanswerable, Proper, LadderOk, CompilePlan, PlanValid, TaskPack.Known, SpeakerPlanValid,
         CompileSpeakerPlan, VoiceOf, AnswerOnly, HelpTargets;
    PlanFailsIff(before, sem, asked, copied);
  }

  lemma OpenConclusion(pack: TaskPack, s: State, sem: Semantics)
    requires (forall p | p in pack.l3Plans :: |p.targets| == 1) && !s.completed && !sem.applied.completion.Complete()
    requires Ask(pack, false, Policy(s.ladder, sem).expression, sem.applied.Ledger()).Some?
    ensures var after := Policy(s.ladder, sem);
            var asked := Ask(pack, false, after.expression, sem.applied.Ledger()).value.targets;
            match SpeechFailure(pack, after, sem, asked, s.ladder.hint, Prewarmed(s.ladder, after, sem))
            case Some(e) => Conclude(pack, s, sem) == Err(e)
            case None => Conclude(pack, s, sem).Ok?
  {
    hide Policy, Ask, SpeechFailure, Prewarmed, ChildNotes, SupportedNotes, CompletionOf;
  }

  /** How an open turn that Mormi cannot answer fails: at its response plan when it is unanswerable, and otherwise at
      the speaker's. */
  lemma RejectedAs(pack: TaskPack, s: State, sem: Semantics)
    requires HomeValid(pack) && Inv(pack, s) && Proper(s.ladder, sem) && !s.completed
    requires Sound(pack, s.ledger, sem.applied)
    requires !sem.applied.completion.Complete() && Remaining(pack, sem.applied.Ledger()) != {}
    requires CannotAnswer(pack, s.ladder, sem) && !sem.initialHelp
    requires AsksAgree(pack) || Policy(s.ladder, sem).expression != L4
    ensures Conclude(pack, s, sem) == Err(if Unanswerable(s.ladder, sem) then PlanRejected else SpeechRejected)
  {
    ValidAsksOne(pack);
    InvLadder(pack, s);
    var after := Policy(s.ladder, sem);
    var l := sem.applied.Ledger();
    assert pack.ValidQuestions() && pack.ValidSlots() && pack.ValidCompletion();
    assert |pack.initial.targets| <= 4 && DistinctKeys(pack.initial.targets);
    hide HomeValid, Inv, Policy, Ask, Unanswerable, Proper, LadderOk, Remaining, Sound, Conclude, SpeechFailure,
         TaskPack.ValidQuestions, TaskPack.ValidSlots, TaskPack.ValidCompletion, DistinctKeys, TaskPack.Known,
         Prewarmed, CannotAnswer, AsksAgree;
    QuestionExists(pack, after.expression, l);
    AskedTargetsAreDistinct(pack, after.expression, l);
    var asked := Ask(pack, false, after.expression, l).value.targets;
    forall t | t in asked ensures pack.Known(t.key) { RemainingIsOpen(pack, l, t.key); }
    SpeechIff(pack, s.ladder, sem, s.ledger, asked);
    SpeechErrorIs(pack, s.ladder, sem, asked, Prewarmed(s.ladder, after, sem));
    OpenConclusion(pack, s, sem);
  }

  /** At any point of any home conversation with no card open, a child who offers half of a method not tried before and
      asks Mormi for the answer in the same breath has the turn rejected, whatever the pack. */
  lemma HalfAnswerIsRejected(pack: TaskPack, s: State, r: string, turn: string)
    requires HomeValid(pack) && Inv(pack, s) && !s.completed && s.ladder.hint == H0 && GoodTurnId(turn)
    requires r in pack.relations && r !in s.ledger.relations && r !in s.ledger.partials
    ensures NextState(pack, s, Said(turn, RequestMormiAnswer, HalfClaim(r))) == Err(PlanRejected)
  {
    ValidAsksOne(pack);
    InvParts(pack, s);
    HalfApplies(pack, s.ledger, r, turn);
    var a := Apply(pack, s.ledger, HalfClaim(r), turn).value;
    InvLadder(pack, s);
    HalfKeepsOpen(pack, s, a);
    HalfIsUnanswerable(s.ladder, r, a);
    hide HomeValid, Inv, Apply, Interpret, Conclude, Policy, Ask, Unanswerable, Proper, HalfClaim, Sound, Usable,
         LadderOk, Said, AsksAgree, QuestionBound, Remaining, Prewarmed;
    SaidIsInterpreted(pack, s.ladder, s.subgoal, s.ledger, turn, RequestMormiAnswer, HalfClaim(r));
    RejectedAs(pack, s, HalfSemantics(r, a));
  }

  lemma HalfKeepsOpen(pack: TaskPack, s: State, a: Applied)
    requires HomeValid(pack) && Inv(pack, s) && !s.completed && Sound(pack, s.ledger, a) && !a.NewCanonical()
    ensures !a.completion.Complete() && Remaining(pack, a.Ledger()) != {}
  {
    hide HomeValid, WellFormed, BoundTo, CompletionOf, QuestionBound, LadderOk, NotesOk;
    forall k | k in Verified(a.Ledger()) ensures k in Verified(s.ledger) {
      if k !in Verified(s.ledger) { VerifiedIsNews(pack, s.ledger, a, k); }
    }
    CompleteIffRequiredVerified(pack, s.ledger);
    EmptyDifference(pack.Required(), Verified(a.Ledger()));
  }
}
