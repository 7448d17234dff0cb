/** Home turns that Mormi cannot answer although nothing is wrong with them: the same claim made twice, a hundred social
    turns, and a fact whose label names another number. */
module HomeSpeech {
  import opened Common
  import opened Content
  import opened Ledgers
  import opened LedgerOperations
  import opened Ladders
  import opened Questions
  import opened Turns
  import opened HomeEngine
  import opened HomeRuns
  import opened HomeStuck
  import opened Lessons

  // ----- the same claim twice -----

  lemma TwiceDoesNotFit(pack: TaskPack, after: Ladder, r: string, a: Applied)
    requires !NoRepeats(Given(TwiceHalf(r).claims, a.progress.claimEvidence))
    ensures !FitsSpeaker(pack, after, SaidSemantics(NoMove, TwiceHalf(r), a))
  {
    hide LabelsFit, NoRepeats;
  }

  lemma PartialIsSpoken(pack: TaskPack, ladder: Ladder, g: Guarded, a: Applied)
    requires LadderOk(ladder) && !a.NewCanonical() && a.NewPartial()
    requires !FitsSpeaker(pack, Policy(ladder, SaidSemantics(NoMove, g, a)), SaidSemantics(NoMove, g, a))
    ensures var sem := SaidSemantics(NoMove, g, a);
            CannotAnswer(pack, ladder, sem) && Proper(ladder, sem) && Policy(ladder, sem).expression != L4
            && !Unanswerable(ladder, sem)
  {
    hide FitsSpeaker, Prewarmed;
  }

  /** At any point of any home conversation, a child's half of a method not tried before is rejected when the
      understanding model claims it twice under two claim ids. */
  lemma RepeatedClaimIsRejected(pack: TaskPack, s: State, r: string, turn: string)
    requires HomeValid(pack) && Inv(pack, s) && !s.completed && GoodTurnId(turn)
    requires r in pack.relations && r !in s.ledger.relations && r !in s.ledger.partials
    ensures NextState(pack, s, Said(turn, NoMove, TwiceHalf(r))) == Err(SpeechRejected)
  {
    hide HomeValid, Inv, Apply, Interpret, Conclude, Policy, CannotAnswer, Proper, TwiceHalf, Sound, Usable, LadderOk,
         Said, FitsSpeaker, Unanswerable, NoRepeats, Given;
    ValidAsksOne(pack);
    InvParts(pack, s);
    InvLadder(pack, s);
    TwiceApplies(pack, s.ledger, r, turn);
    var a := Apply(pack, s.ledger, TwiceHalf(r), turn).value;
    HalfKeepsOpen(pack, s, a);
    SaidIsInterpreted(pack, s.ladder, s.subgoal, s.ledger, turn, NoMove, TwiceHalf(r));
    var sem := SaidSemantics(NoMove, TwiceHalf(r), a);
    TwiceDoesNotFit(pack, Policy(s.ladder, sem), r, a);
    PartialIsSpoken(pack, s.ladder, TwiceHalf(r), a);
    RejectedAs(pack, s, sem);
  }

  // ----- a hundred social turns -----

  /** A social turn: bridged, without progress, asking for nothing. */
  predicate Social(sem: Semantics) {
    sem.route == BridgeRoute && sem.source == SonnetLow && !sem.Progressed() && !sem.AsksForSupport()
  }

  ghost predicate SocialTurn(pack: TaskPack, s: State, t: Turn)
    requires forall p | p in pack.l3Plans :: |p.targets| == 1
  {
    var r := Interpret(pack, s.ladder, s.subgoal, s.ledger, t);
    r.Ok? && Proper(s.ladder, r.value) && Social(r.value)
  }

  lemma SocialIsCounted(pack: TaskPack, ladder: Ladder, sem: Semantics)
    requires Social(sem) && Proper(ladder, sem)
    ensures Policy(ladder, sem) == ladder.(unrelated := ladder.unrelated + 1)
    ensures CannotAnswer(pack, ladder, sem) <==> ladder.unrelated >= MAX_REPEATS
    ensures !Unanswerable(ladder, sem) && !sem.initialHelp
  {
    hide FitsSpeaker, Prewarmed;
  }

  /** A social turn succeeds exactly while fewer than a hundred others went before it; it only counts itself. */
  lemma SocialTurnIff(pack: TaskPack, s: State, t: Turn)
    requires HomeValid(pack) && Inv(pack, s) && !s.completed && AsksAgree(pack)
    requires (forall p | p in pack.l3Plans :: |p.targets| == 1) && SocialTurn(pack, s, t)
    ensures NextState(pack, s, t).Ok? <==> s.ladder.unrelated < MAX_REPEATS
    ensures NextState(pack, s, t).Err? ==> NextState(pack, s, t) == Err(SpeechRejected)
    ensures NextState(pack, s, t).Ok? ==>
              var n := NextState(pack, s, t).value;
              && n.ladder == s.ladder.(unrelated := s.ladder.unrelated + 1) && !n.completed && Inv(pack, n)
              && Verified(n.ledger) == Verified(s.ledger)
  {
    hide HomeValid, Inv, Interpret, Conclude, Policy, CannotAnswer, Proper, Sound, Usable, LadderOk, Unanswerable,
         Social, AsksAgree, Verified, TaskPack.ValidQuestions, TaskPack.ValidSlots;
    InvParts(pack, s);
    InvLadder(pack, s);
    InterpretIsSound(pack, s.ladder, s.subgoal, s.ledger, t);
    var sem := Interpret(pack, s.ladder, s.subgoal, s.ledger, t).value;
    SocialIsCounted(pack, s.ladder, sem);
    SocialTeachesNothing(pack, s, sem);
    ConcludeSucceedsIff(pack, s, sem);
    if NextState(pack, s, t).Ok? {
      TurnKeepsInv(pack, s, t);
      ConcludeFrame(pack, s, sem);
      OpenStaysOpen(pack, s, sem);
    } else {
      RejectedAs(pack, s, sem);
    }
  }

  lemma SocialTeachesNothing(pack: TaskPack, s: State, sem: Semantics)
    requires HomeValid(pack) && Inv(pack, s) && !s.completed && Sound(pack, s.ledger, sem.applied) && Social(sem)
    ensures !sem.applied.completion.Complete() && Remaining(pack, sem.applied.Ledger()) != {}
    ensures Verified(sem.applied.Ledger()) == Verified(s.ledger)
  {
    hide HomeValid, Inv, Sound, Remaining, Verified;
    HalfKeepsOpen(pack, s, sem.applied);
    SoundExtends(pack, s.ledger, sem.applied);
    ExtendsVerified(sem.applied.Ledger(), s.ledger);
    forall k | k in Verified(sem.applied.Ledger()) ensures k in Verified(s.ledger) {
      if k !in Verified(s.ledger) { VerifiedIsNews(pack, s.ledger, sem.applied, k); }
    }
  }

  /** Play, in any words. */
  const PLAY := Response(NonLearningSafe, SafePlay, NoSupport, None, false, [])

  function Playing(turn: string): Turn {
    Turn.Turn(turn, Speech(Unguarded(PLAY)))
  }

  lemma PlayIsSocial(pack: TaskPack, s: State, turn: string)
    requires forall p | p in pack.l3Plans :: |p.targets| == 1
    ensures SocialTurn(pack, s, Playing(turn))
  {
    hide CompletionOf;
  }

  /** Every social turn fails here. */
  ghost predicate OutOfPlay(pack: TaskPack, s: State)
    requires forall p | p in pack.l3Plans :: |p.targets| == 1
  {
    forall t | SocialTurn(pack, s, t) :: NextState(pack, s, t) == Err(SpeechRejected)
  }

  lemma PlayedOut(pack: TaskPack, s: State)
    requires HomeValid(pack) && Inv(pack, s) && !s.completed && AsksAgree(pack) && s.ladder.unrelated >= MAX_REPEATS
    requires forall p | p in pack.l3Plans :: |p.targets| == 1
    ensures OutOfPlay(pack, s)
  {
    hide HomeValid, Inv, NextState, SocialTurn, AsksAgree;
    forall t | SocialTurn(pack, s, t) ensures NextState(pack, s, t) == Err(SpeechRejected) {
      SocialTurnIff(pack, s, t);
    }
  }

  lemma PlayOn(pack: TaskPack, s: State) returns (n: State)
    requires HomeValid(pack) && Inv(pack, s) && !s.completed && AsksAgree(pack) && s.ladder.unrelated < MAX_REPEATS
    requires forall p | p in pack.l3Plans :: |p.targets| == 1
    ensures NextState(pack, s, Playing("t")) == Ok(n) && Inv(pack, n) && !n.completed
    ensures n.ladder.unrelated == s.ladder.unrelated + 1 && Verified(n.ledger) == Verified(s.ledger)
  {
    hide HomeValid, Inv, NextState, SocialTurn, AsksAgree, Verified, Playing;
    PlayIsSocial(pack, s, "t");
    SocialTurnIff(pack, s, Playing("t"));
    n := NextState(pack, s, Playing("t")).value;
  }

  /** From any open state of a conversation whose questions agree a child can play until a hundred social turns have
      gone by without progress; then every social turn fails, again and again, since a failed turn is not stored. */
  lemma {:induction false} SocialTurnsRunOut(pack: TaskPack, s: State) returns (states: seq<State>, turns: seq<Turn>)
    requires HomeValid(pack) && Inv(pack, s) && !s.completed && AsksAgree(pack)
    ensures |states| == |turns| + 1 && states[0] == s && forall p | p in pack.l3Plans :: |p.targets| == 1
    ensures Run(pack, states, turns)
    ensures |turns| == if s.ladder.unrelated < MAX_REPEATS then MAX_REPEATS - s.ladder.unrelated else 0
    ensures !states[|turns|].completed && Verified(states[|turns|].ledger) == Verified(s.ledger)
    ensures OutOfPlay(pack, states[|turns|])
    decreases MAX_REPEATS - s.ladder.unrelated
  {
    hide HomeValid, Inv, NextState, OutOfPlay, AsksAgree, Verified, Run, Playing;
    ValidAsksOne(pack);
    if s.ladder.unrelated >= MAX_REPEATS {
      states, turns := [s], [];
      RunNone(pack, s);
      PlayedOut(pack, s);
    } else {
      var n := PlayOn(pack, s);
      var later, more := SocialTurnsRunOut(pack, n);
      RunCons(pack, s, Playing("t"), later, more);
      states, turns := [s] + later, [Playing("t")] + more;
      assert states[|turns|] == later[|more|];
    }
  }

  lemma RunNone(pack: TaskPack, s: State)
    requires HomeValid(pack)
    ensures Run(pack, [s], [])
  {
    hide HomeValid;
  }

  lemma RunCons(pack: TaskPack, s: State, t: Turn, states: seq<State>, turns: seq<Turn>)
    requires HomeValid(pack) && Run(pack, states, turns) && (forall p | p in pack.l3Plans :: |p.targets| == 1)
    requires !s.completed && NextState(pack, s, t) == Ok(states[0])
    ensures Run(pack, [s] + states, [t] + turns)
  {
    hide HomeValid, NextState;
    var all, every := [s] + states, [t] + turns;
    forall i | 0 <= i < |every|
      ensures !all[i].completed && NextState(pack, all[i], every[i]) == Ok(all[i + 1])
    {
      if i > 0 { assert every[i] == turns[i - 1] && all[i] == states[i - 1] && all[i + 1] == states[i]; }
    }
  }

  // ----- a fact whose label names another number -----

  /** Once a fact with such a label is verified, every turn put to the main speaker fails, but for bare answers and
      those that finish the task. */
  lemma MislabelledFactSilences(pack: TaskPack, s: State, t: Turn, f: string)
    requires HomeValid(pack) && Inv(pack, s) && !s.completed && AsksAgree(pack)
    requires f in s.ledger.facts && f in pack.facts && !pack.facts[f].plainLabel
    requires (forall p | p in pack.l3Plans :: |p.targets| == 1)
    requires Interpret(pack, s.ladder, s.subgoal, s.ledger, t).Ok?
    requires var sem := Interpret(pack, s.ladder, s.subgoal, s.ledger, t).value;
             && Proper(s.ladder, sem) && !sem.applied.completion.Complete() && !sem.initialHelp
             && VoiceOf(sem, Prewarmed(s.ladder, Policy(s.ladder, sem), sem)) == MainVoice
             && !(AnswerOnly(sem) && sem.response.move == NoMove)
    ensures NextState(pack, s, t).Err?
  {
    hide HomeValid, Inv, Interpret, Conclude, Policy, Proper, Sound, Usable, AsksAgree, TaskPack.ValidQuestions,
         TaskPack.ValidSlots, VoiceOf, Prewarmed, AnswerOnly, Unanswerable, Unbridgeable, Unhelpful;
    InvParts(pack, s);
    InterpretIsSound(pack, s.ladder, s.subgoal, s.ledger, t);
    var sem := Interpret(pack, s.ladder, s.subgoal, s.ledger, t).value;
    ConcludeSucceedsIff(pack, s, sem);
    SoundExtends(pack, s.ledger, sem.applied);
    assert f in sem.applied.Ledger().facts;
    assert !LabelsFit(pack, sem);
    assert !FitsSpeaker(pack, Policy(s.ladder, sem), sem);
  }

  lemma BareAnswerIs(pack: TaskPack, l: Ledger, f: string, a: Applied)
    requires Sound(pack, l, a) && Teaches(pack, l, [TargetKey(FactTarget, f)], a.Ledger()) && f !in l.facts
    ensures a.progress.newFacts != [] && a.progress.newRelations == [] && a.progress.newPartials == []
    ensures f in a.Ledger().facts
  {
    hide WellFormed, BoundTo, CompletionOf, Extends;
    var p := a.progress;
    assert TargetKey(FactTarget, f) in [TargetKey(FactTarget, f)];
    assert TargetKey(FactTarget, f) in Verified(a.Ledger());
    assert f in Elements(p.newFacts);
    forall r ensures r !in p.newRelations {
      assert r in p.newRelations <==> r in Elements(p.newRelations);
      assert TargetKey(RelationTarget, r) in Verified(a.Ledger()) <==> TargetKey(RelationTarget, r) in Verified(l);
      assert TargetKey(RelationTarget, r) !in [TargetKey(FactTarget, f)];
    }
    forall r ensures r !in p.newPartials {
      assert r in p.newPartials <==> r in Elements(p.newPartials);
    }
    EmptyIff(p.newRelations);
    EmptyIff(p.newPartials);
  }

  lemma BareAnswerIsAnswered(pack: TaskPack, ladder: Ladder, sem: Semantics)
    requires sem == SaidSemantics(NoMove, Guarded(sem.response.claims, []), sem.applied) && AnswerOnly(sem)
    ensures Proper(ladder, sem) && !CannotAnswer(pack, ladder, sem)
  {
    hide FitsSpeaker, Prewarmed, Policy;
  }

  /** A silence is put to the main speaker. */
  lemma SilenceIsSpoken(pack: TaskPack, ladder: Ladder, l: Ledger)
    ensures var sem := NoAnswerSemantics(pack, ladder, l, Silence);
            && Proper(ladder, sem) && !sem.initialHelp && !AnswerOnly(sem) && sem.applied == Unchanged(pack, l)
            && VoiceOf(sem, Prewarmed(ladder, Policy(ladder, sem), sem)) == MainVoice
  {
    hide Prewarmed, Policy, CompletionOf;
  }

  /** How a bare answer is interpreted. */
  lemma BareIsInterpreted(pack: TaskPack, s: State, f: string, turn: string) returns (a: Applied)
    requires (forall p | p in pack.l3Plans :: |p.targets| == 1) && Usable(pack, s.ledger) && GoodTurnId(turn)
    requires f in pack.facts && f !in s.ledger.facts
    requires exists k :: k in Remaining(pack, s.ledger) && k != TargetKey(FactTarget, f)
    ensures var keys := [TargetKey(FactTarget, f)];
            var sem := SaidSemantics(NoMove, ClaimsFor(keys), a);
            && Interpret(pack, s.ladder, s.subgoal, s.ledger, Said(turn, NoMove, ClaimsFor(keys))) == Ok(sem)
            && Sound(pack, s.ledger, a) && AnswerOnly(sem) && !a.completion.Complete() && f in a.Ledger().facts
  {
    hide Apply, Interpret, Sound, Usable, Said, ClaimsFor, Teaches, Remaining;
    var keys := [TargetKey(FactTarget, f)];
    LessonApplies(pack, s.ledger, keys, turn);
    a := Apply(pack, s.ledger, ClaimsFor(keys), turn).value;
    SaidIsInterpreted(pack, s.ladder, s.subgoal, s.ledger, turn, NoMove, ClaimsFor(keys));
    BareAnswerIs(pack, s.ledger, f, a);
    LessonIsOpen(pack, s.ledger, keys, a);
  }

  /** In every home pack with such a label the fact can be named, as a bare answer, while something else stays open;
      from then on the conversation is stuck at, say, a silence. */
  lemma OneAnswerSilences(pack: TaskPack, s: State, f: string, turn: string) returns (n: State)
    requires HomeValid(pack) && Inv(pack, s) && !s.completed && AsksAgree(pack) && GoodTurnId(turn)
    requires f in pack.facts && !pack.facts[f].plainLabel && f !in s.ledger.facts
    requires exists k :: k in Remaining(pack, s.ledger) && k != TargetKey(FactTarget, f)
    ensures forall p | p in pack.l3Plans :: |p.targets| == 1
    ensures NextState(pack, s, Said(turn, NoMove, ClaimsFor([TargetKey(FactTarget, f)]))) == Ok(n)
    ensures !n.completed && f in n.ledger.facts
    ensures NextState(pack, n, Turn.Turn(turn, NoAnswer(Silence))).Err?
  {
    hide HomeValid, Inv, Interpret, Conclude, Policy, CannotAnswer, Proper, Sound, Usable, LadderOk, Said,
         ClaimsFor, AsksAgree, Remaining, TaskPack.ValidQuestions, TaskPack.ValidSlots, AnswerOnly;
    ValidAsksOne(pack);
    InvParts(pack, s);
    InvLadder(pack, s);
    var t := Said(turn, NoMove, ClaimsFor([TargetKey(FactTarget, f)]));
    var a := BareIsInterpreted(pack, s, f, turn);
    var sem := SaidSemantics(NoMove, ClaimsFor([TargetKey(FactTarget, f)]), a);
    BareAnswerIsAnswered(pack, s.ladder, sem);
    ConcludeSucceedsIff(pack, s, sem);
    n := NextState(pack, s, t).value;
    ConcludeFrame(pack, s, sem);
    OpenStaysOpen(pack, s, sem);
    TurnKeepsInv(pack, s, t);
    SilenceFails(pack, n, f, turn);
  }

  lemma SilenceFails(pack: TaskPack, s: State, f: string, turn: string)
    requires HomeValid(pack) && Inv(pack, s) && !s.completed && AsksAgree(pack)
    requires f in s.ledger.facts && f in pack.facts && !pack.facts[f].plainLabel
    requires (forall p | p in pack.l3Plans :: |p.targets| == 1)
    ensures NextState(pack, s, Turn.Turn(turn, NoAnswer(Silence))).Err?
  {
    hide HomeValid, Inv, Policy, Proper, AsksAgree, AnswerOnly, VoiceOf, Prewarmed, Unchanged, NextState;
    SilenceIsSpoken(pack, s.ladder, s.ledger);
    UnchangedIsOpen(pack, s);
    MislabelledFactSilences(pack, s, Turn.Turn(turn, NoAnswer(Silence)), f);
  }

  // ----- a correct choice that shows too much -----

  lemma PickedIsSpoken(pack: TaskPack, ladder: Ladder, l: Ledger, k: Key, sem: Semantics)
    requires Picked(pack, l, k, sem)
    ensures !sem.initialHelp && !Unanswerable(ladder, sem)
  {
    hide Sound, Verified, TaskPack.Required, Policy;
  }

  /** A correct choice that cannot be answered is rejected: a method with more than eight new note relations, or a fact
      verified before whose label is not plain. */
  lemma UnansweredPickIsRejected(pack: TaskPack, s: State, t: Turn)
    requires HomeValid(pack) && Inv(pack, s) && !s.completed && s.ladder.expression == L2
    requires CorrectPick(pack, s.ledger, t) && ShownPlan(pack, s.ledger).Some?
    requires !PickIsAnswered(pack, s.ledger, ShownPlan(pack, s.ledger).value.target.key)
    ensures NextState(pack, s, t) == Err(SpeechRejected)
  {
    hide HomeValid, Inv, Interpret, Conclude, Policy, CannotAnswer, Proper, Sound, Usable, LadderOk, Unanswerable,
         Picked, PickIsAnswered, CorrectPick, ShownPlan, Remaining, TaskPack.ValidQuestions, TaskPack.ValidSlots;
    InvParts(pack, s);
    InvLadder(pack, s);
    CorrectPickIsInterpreted(pack, s, t);
    var sem := Interpret(pack, s.ladder, s.subgoal, s.ledger, t).value;
    var k := ShownPlan(pack, s.ledger).value.target.key;
    PickIsAnsweredIff(pack, s.ladder, s.ledger, k, sem);
    PickIsPlain(pack, s.ladder, s.ledger, k, sem);
    PickedIsSpoken(pack, s.ladder, s.ledger, k, sem);
    PickedIsSound(pack, s.ledger, k, sem);
    OpenRemains(pack, s.ledger, sem.applied);
    RejectedAs(pack, s, sem);
  }

  lemma PickedIsSound(pack: TaskPack, l: Ledger, k: Key, sem: Semantics)
    requires Picked(pack, l, k, sem)
    ensures Sound(pack, l, sem.applied)
  {
    hide Sound;
  }
}
