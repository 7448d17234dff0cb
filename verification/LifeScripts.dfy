/** Scripts: turns by which a conversation brings any plan on screen and writes any value that can be written. */
module LifeScripts {
  import opened Common
  import opened Content
  import opened Ledgers
  import opened LedgerOperations
  import opened Ladders
  import opened Questions
  import opened Turns
  import opened Lessons
  import opened WritableValues
  import opened LifeContent
  import opened LifeEngine
  import opened LifeTurns
  import opened LifeRuns
  import opened LifeWrites
  import opened LifeCredit
  import opened LifeProgress
  import opened Json
  import HomeRuns

  // ----- states some conversation reaches -----

  ghost predicate Reached(sc: Scenario, s: LifeState) {
    exists states, turns :: RunFromStart(sc, states, turns) && |states| == |turns| + 1 && states[|turns|] == s
  }

  /** Some turn of some conversation fails this way. */
  ghost predicate CanFail(sc: Scenario, e: LifeError) {
    exists s, t :: Placed(sc, s) && Reached(sc, s) && !s.completed && NextState(sc, s, t) == Err(e)
  }

  lemma ReachedIsGood(sc: Scenario, s: LifeState)
    requires sc.Valid() && Reached(sc, s)
    ensures Inv(sc, s) && Placed(sc, s) && AllWritten(sc, s) && s.index < |sc.stages|
  {
    hide Scenario.Valid, RunFromStart, Inv, AllWritten, Placed;
    var states, turns :| RunFromStart(sc, states, turns) && |states| == |turns| + 1 && states[|turns|] == s;
    RunKeepsInv(sc, states, turns, |turns|);
    RunKeepsWritten(sc, states, turns, |turns|);
    InvPlaced(sc, s);
  }

  lemma RunSnoc(sc: Scenario, states: seq<LifeState>, turns: seq<Turn>, t: Turn, n: LifeState)
    requires Run(sc, states, turns) && |states| == |turns| + 1 && Placed(sc, states[|turns|]) && Placed(sc, n)
    requires !states[|turns|].completed && NextState(sc, states[|turns|], t) == Ok(n)
    ensures Run(sc, states + [n], turns + [t])
  {
    hide Placed, NextState;
    var longer, more := states + [n], turns + [t];
    forall i {:trigger longer[i]} | 0 <= i < |longer| ensures Placed(sc, longer[i]) {
      assert longer[i] == if i < |states| then states[i] else n;
    }
    forall i | 0 <= i < |more|
      ensures !longer[i].completed
      ensures NextState(sc, longer[i], more[i]) == Ok(longer[i + 1])
    {
      assert longer[i] == states[i] && longer[i + 1] == if i < |turns| then states[i + 1] else n;
      assert more[i] == if i < |turns| then turns[i] else t;
    }
  }

  lemma ReachedStep(sc: Scenario, s: LifeState, t: Turn)
    requires Reached(sc, s) && Placed(sc, s) && !s.completed && NextState(sc, s, t).Ok?
    ensures Reached(sc, NextState(sc, s, t).value)
  {
    hide Placed, NextState, Initial, Run;
    var states, turns :| RunFromStart(sc, states, turns) && |states| == |turns| + 1 && states[|turns|] == s;
    var n := NextState(sc, s, t).value;
    RunSnoc(sc, states, turns, t, n);
    assert RunFromStart(sc, states + [n], turns + [t]);
  }

  // ----- one turn that leaves its task open -----

  /** Earlier tasks are as they were. */
  ghost predicate SamePast(sc: Scenario, s: LifeState, n: LifeState)
    requires Placed(sc, s) && Placed(sc, n)
  {
    forall i: nat {:trigger SameTask(sc, s, n, sc.stages[i])} | i < s.index && i < |sc.stages| ::
      SameTask(sc, s, n, sc.stages[i])
  }

  /** A reached state of a conversation that is not over. */
  ghost predicate Live(sc: Scenario, s: LifeState) {
    Placed(sc, s) && Reached(sc, s) && !s.completed
  }

  /** Still in the task `s` is in. */
  ghost predicate Stays(sc: Scenario, s: LifeState, n: LifeState) {
    && Placed(sc, s) && Live(sc, n)
    && n.index == s.index && Current(sc, n) == Current(sc, s) && SamePast(sc, s, n)
  }

  lemma SamePastSelf(sc: Scenario, s: LifeState)
    requires Placed(sc, s)
    ensures SamePast(sc, s, s)
  {
    hide Placed, PackOf, LedgerOf, NotesOf;
  }

  lemma StaysHere(sc: Scenario, s: LifeState)
    requires Live(sc, s)
    ensures Stays(sc, s, s)
  {
    hide Placed, Reached, Current, SamePast;
    SamePastSelf(sc, s);
  }

  lemma StaysOn(sc: Scenario, s: LifeState, m: LifeState, n: LifeState)
    requires Stays(sc, s, m) && Stays(sc, m, n)
    ensures Stays(sc, s, n)
  {
    hide Placed, Reached, Current, PackOf, LedgerOf, NotesOf;
    forall i: nat | i < s.index && i < |sc.stages| ensures SameTask(sc, s, n, sc.stages[i]) {
      assert SameTask(sc, s, m, sc.stages[i]) && SameTask(sc, m, n, sc.stages[i]);
    }
  }

  /** What a live state offers: a valid, askable pack and a usable open ledger. */
  lemma LivePack(sc: Scenario, s: LifeState)
    requires sc.Valid() && Asking(sc) && Live(sc, s)
    ensures Inv(sc, s) && AllWritten(sc, s) && s.index < |sc.stages| && LadderOk(s.ladder)
    ensures LifeValid(Current(sc, s)) && Askable(Current(sc, s))
    ensures Usable(Current(sc, s), CurrentLedger(sc, s)) && !Complete(Current(sc, s), CurrentLedger(sc, s))
    ensures Asked(Current(sc, s), s.ladder.expression, s.subgoal, CurrentLedger(sc, s))
  {
    hide Scenario.Valid, Asking, Placed, Reached, Inv, AllWritten, Current, CurrentLedger, LifeValid, Askable, Asked,
         WellFormed, BoundTo, NotesFit, HintFits, Complete;
    ReachedIsGood(sc, s);
    InvLadder(sc, s);
    CurrentIsAskable(sc, s);
    CurrentAsked(sc, s);
    InvCurrent(sc, s);
  }

  /** A turn that leaves its task open and can be answered leads on, within the task. */
  lemma OpenStep(sc: Scenario, s: LifeState, t: Turn) returns (n: LifeState)
    requires sc.Valid() && Asking(sc) && Live(sc, s) && InterpretLife(sc, s, t).Ok?
    requires var sem := InterpretLife(sc, s, t).value;
             !Done(sem) && Proper(s.ladder, sem) && !CannotAnswer(Current(sc, s), s.ladder, sem)
    ensures Stays(sc, s, n) && NextState(sc, s, t) == Ok(n)
    ensures var sem := InterpretLife(sc, s, t).value;
            CurrentLedger(sc, n) == sem.applied.Ledger() && n.ladder == Policy(s.ladder, sem)
  {
    hide Scenario.Valid, Asking, Placed, Reached, Inv, AllWritten, Current, CurrentLedger, Interpret, Conclude, Sound,
         Done, Proper, CannotAnswer, Policy, Written, LifeValid, Askable, Asked, Usable, Complete, LadderOk,
         Evidenced;
    LivePack(sc, s);
    InterpretedWritten(sc, s, t);
    var sem := InterpretLife(sc, s, t).value;
    OpenTurnSucceeds(sc, s, sem);
    n := NextState(sc, s, t).value;
    ReachedStep(sc, s, t);
    TurnAdvances(sc, s, t);
    OpenAdvance(sc, s, n, sem);
  }

  lemma OpenAdvance(sc: Scenario, s: LifeState, n: LifeState, sem: Semantics)
    requires Placed(sc, s) && !s.completed && Advanced(sc, s, n, sem) && !Done(sem)
    ensures Placed(sc, n) && !n.completed && n.index == s.index && Current(sc, n) == Current(sc, s)
    ensures SamePast(sc, s, n)
    ensures CurrentLedger(sc, n) == sem.applied.Ledger() && n.ladder == Policy(s.ladder, sem)
  {
    hide Runnable, InUse, Done, Policy, PackOf, LedgerOf, NotesOf, QuestionBound, CreditTurned, Tracked, Emit;
    CurrentIs(sc, n);
    CurrentIs(sc, s);
  }

  // ----- the turns of a script -----

  lemma LessonLadder(l: Ladder, sem: Semantics)
    requires sem.source == SonnetLow && sem.response.move == NoMove && sem.response.ui == None
    requires sem.applied.NewCanonical()
    ensures var m := Policy(l, sem); m.expression == l.expression && m.hint == l.hint && m.conceptFailures == 0
  {}

  lemma OnlyAnswers(pack: TaskPack, l: Ledger, keys: seq<Key>, sem: Semantics)
    requires Sound(pack, l, sem.applied) && Teaches(pack, l, keys, sem.applied.Ledger()) && sem.applied.NewCanonical()
    requires forall k | k in keys :: k.kind == FactTarget
    ensures AnswerOnly(sem)
  {
    hide Sound, Teaches;
    NewsOfLesson(pack, l, keys, sem.applied);
    assert forall r :: TargetKey(RelationTarget, r) !in keys;
    EmptyIff(sem.applied.progress.newRelations);
  }

  lemma StillNoFacts(pack: TaskPack, l: Ledger, keys: seq<Key>, m: Ledger)
    requires Teaches(pack, l, keys, m) && l.facts == map[]
    requires forall k | k in keys :: k.kind == RelationTarget
    ensures m.facts == map[]
  {
    forall f ensures f !in m.facts {
      assert TargetKey(FactTarget, f) in Verified(m) <==> f in m.facts;
      assert TargetKey(FactTarget, f) !in keys;
    }
    assert m.facts.Keys == {};
  }

  lemma NoFactsToName(pack: TaskPack, l: Ledger, keys: seq<Key>, sem: Semantics)
    requires Teaches(pack, l, keys, sem.applied.Ledger()) && l.facts == map[]
    requires forall k | k in keys :: k.kind == RelationTarget
    ensures sem.applied.Ledger().facts == map[] && LabelsFit(pack, sem)
  {
    StillNoFacts(pack, l, keys, sem.applied.Ledger());
    hide Teaches;
  }

  /** Keys of one kind that can be said in one turn whatever the labels: facts, or methods before any fact is known. */
  ghost predicate Sayable(l: Ledger, keys: seq<Key>) {
    && Unique(keys) && |keys| <= MAX_SIGNAL_IDS
    && ((forall k | k in keys :: k.kind == FactTarget)
        || (l.facts == map[] && forall k | k in keys :: k.kind == RelationTarget))
  }

  lemma LessonIsAnswered(pack: TaskPack, l: Ledger, ladder: Ladder, keys: seq<Key>, turn: string, sem: Semantics)
    requires Sayable(l, keys) && Apply(pack, l, ClaimsFor(keys), turn).Ok?
    requires sem == SaidSemantics(NoMove, ClaimsFor(keys), Apply(pack, l, ClaimsFor(keys), turn).value)
    requires Sound(pack, l, sem.applied) && Teaches(pack, l, keys, sem.applied.Ledger()) && sem.applied.NewCanonical()
    ensures Proper(ladder, sem) && !CannotAnswer(pack, ladder, sem)
    ensures var m := Policy(ladder, sem); m.expression == ladder.expression && m.hint == ladder.hint
  {
    hide Apply, Sound, Teaches, FitsSpeaker, Policy, LabelsFit, HasCopy, Proper, Speechless, ClaimsFor;
    LessonLadder(ladder, sem);
    MainSpeech(pack, ladder, sem, HasCopy(Policy(ladder, sem), sem));
    if forall k | k in keys :: k.kind == FactTarget {
      OnlyAnswers(pack, l, keys, sem);
    } else {
      NoFactsToName(pack, l, keys, sem);
      LessonFits(pack, l, keys, turn, Policy(ladder, sem), sem);
    }
  }

  lemma TeachesNothing(pack: TaskPack, l: Ledger, keys: seq<Key>)
    requires forall k | k in keys :: k in Verified(l)
    ensures Teaches(pack, l, keys, l)
  {}

  /** A lesson in one kind of target that leaves something open; what is known already need not be said. */
  lemma Teach(sc: Scenario, s: LifeState, keys: seq<Key>) returns (n: LifeState)
    requires sc.Valid() && Asking(sc) && Live(sc, s) && Sayable(CurrentLedger(sc, s), keys)
    requires forall k | k in keys :: Current(sc, s).Known(k)
    requires exists k :: k in Remaining(Current(sc, s), CurrentLedger(sc, s)) && k !in keys
    ensures Stays(sc, s, n) && Teaches(Current(sc, s), CurrentLedger(sc, s), keys, CurrentLedger(sc, n))
    ensures n.ladder.expression == s.ladder.expression && n.ladder.hint == s.ladder.hint
  {
    hide Scenario.Valid, Asking, Placed, Reached, Inv, AllWritten, Current, CurrentLedger, Interpret, Sound, Proper,
         CannotAnswer, Policy, LifeValid, Askable, Asked, Usable, Complete, LadderOk, Apply, ClaimsFor, Sayable,
         Teaches, Said, Remaining, TaskPack.Known, Stays, Verified;
    var pack, l := Current(sc, s), CurrentLedger(sc, s);
    if k :| k in keys && k !in Verified(l) {
      LivePack(sc, s);
      assert Unique(keys) by { SayableOnce(l, keys); }
      LessonApplies(pack, l, keys, "t");
      SaidIsInterpreted(pack, s.ladder, s.subgoal, l, "t", NoMove, ClaimsFor(keys));
      var t := Said("t", NoMove, ClaimsFor(keys));
      var a := Apply(pack, l, ClaimsFor(keys), "t").value;
      LessonSays(pack, l, keys, a, k);
      LessonIsAnswered(pack, l, s.ladder, keys, "t", InterpretLife(sc, s, t).value);
      LessonIsOpen(pack, l, keys, a);
      n := OpenStep(sc, s, t);
    } else {
      TeachesNothing(pack, l, keys);
      StaysHere(sc, s);
      n := s;
    }
  }

  lemma SayableOnce(l: Ledger, keys: seq<Key>)
    requires Sayable(l, keys)
    ensures Unique(keys)
  {}

  lemma LessonSays(pack: TaskPack, l: Ledger, keys: seq<Key>, a: Applied, k: Key)
    requires Sound(pack, l, a) && Teaches(pack, l, keys, a.Ledger()) && k in keys && k !in Verified(l)
    ensures a.NewCanonical()
  {
    hide Sound, Verified;
    VerifiedIsNews(pack, l, a, k);
  }

  lemma HalfLadder(l: Ladder, sem: Semantics)
    requires LadderOk(l) && l.hint == H0 && sem.source == SonnetLow && sem.route == MainRoute
    requires !sem.applied.NewCanonical() && sem.applied.NewPartial()
    ensures var m := Policy(l, sem);
            && m.expression == (if l.expression == L4 then L3 else l.expression) && m.hint == H0
            && m.conceptFailures <= MAX_REPEATS
  {}

  /** A half said before any fact is known fits the speaker. */
  lemma HalfFits(pack: TaskPack, after: Ladder, r: string, a: Applied)
    requires !a.NewCanonical() && a.Ledger().facts == map[] && after.conceptFailures <= MAX_REPEATS
    ensures FitsSpeaker(pack, after, SaidSemantics(NoMove, HalfClaim(r), a))
  {
    var sem := SaidSemantics(NoMove, HalfClaim(r), a);
    DedupShortens(Claimed(HalfClaim(r).claims, FactTarget, false));
    DedupShortens(Claimed(HalfClaim(r).claims, RelationTarget, false));
    assert |GivenEvidence(sem)| <= 1;
    NoRepeatsIffUnique(GivenEvidence(sem));
    hide Claimed, Dedup, NoRepeats, Given;
  }

  lemma SameVerified(pack: TaskPack, l: Ledger, m: Ledger)
    requires m == l.(partials := m.partials)
    ensures Remaining(pack, m) == Remaining(pack, l) && (Complete(pack, m) <==> Complete(pack, l))
  {}

  lemma SoundDone(pack: TaskPack, l: Ledger, sem: Semantics)
    requires Sound(pack, l, sem.applied)
    ensures Done(sem) <==> Complete(pack, sem.applied.Ledger())
  {}

  /** Half a method, of a relation not verified or tried before, while no fact is known. */
  lemma TryHalf(sc: Scenario, s: LifeState, r: string) returns (n: LifeState)
    requires sc.Valid() && Asking(sc) && Live(sc, s) && s.ladder.hint == H0 && CurrentLedger(sc, s).facts == map[]
    requires r in Current(sc, s).relations && r !in CurrentLedger(sc, s).relations
    requires r !in CurrentLedger(sc, s).partials
    ensures Stays(sc, s, n) && n.ladder.hint == H0
    ensures n.ladder.expression == if s.ladder.expression == L4 then L3 else s.ladder.expression
    ensures var l, m := CurrentLedger(sc, s), CurrentLedger(sc, n); m == l.(partials := m.partials) && r in m.partials
  {
    hide Scenario.Valid, Asking, Placed, Reached, Inv, AllWritten, Current, CurrentLedger, Interpret, Sound, Proper,
         CannotAnswer, Policy, LifeValid, Askable, Asked, Usable, Complete, LadderOk, Apply, HalfClaim, Said,
         Remaining, Stays, Done, FitsSpeaker, HasCopy, Speechless;
    var pack, l := Current(sc, s), CurrentLedger(sc, s);
    LivePack(sc, s);
    HalfApplies(pack, l, r, "t");
    SaidIsInterpreted(pack, s.ladder, s.subgoal, l, "t", NoMove, HalfClaim(r));
    var t := Said("t", NoMove, HalfClaim(r));
    var sem := InterpretLife(sc, s, t).value;
    HalfLadder(s.ladder, sem);
    HalfFits(pack, Policy(s.ladder, sem), r, sem.applied);
    HalfIsAnswered(pack, s.ladder, sem);
    SameVerified(pack, l, sem.applied.Ledger());
    SoundDone(pack, l, sem);
    n := OpenStep(sc, s, t);
  }

  lemma HalfIsAnswered(pack: TaskPack, ladder: Ladder, sem: Semantics)
    requires sem.route == MainRoute && sem.source == SonnetLow && !sem.initialHelp && sem.applied.NewPartial()
    requires sem.response.move == NoMove && sem.response.ui == None && FitsSpeaker(pack, Policy(ladder, sem), sem)
    ensures Proper(ladder, sem) && !CannotAnswer(pack, ladder, sem)
  {
    hide FitsSpeaker, HasCopy, Policy, Proper, Speechless;
    MainSpeech(pack, ladder, sem, HasCopy(Policy(ladder, sem), sem));
  }

  lemma SilenceLadder(pack: TaskPack, l: Ledger, ladder: Ladder)
    requires LadderOk(ladder) && ladder.expression != L0 && l.facts == map[]
    ensures var sem := NoAnswerSemantics(pack, ladder, l, Silence);
            && Policy(ladder, sem).expression == Lower(ladder.expression)
            && Policy(ladder, sem).hint == (if ladder.expression == L2 then H3 else ladder.hint)
            && Proper(ladder, sem) && !CannotAnswer(pack, ladder, sem) && sem.applied == Unchanged(pack, l)
  {
    hide CompletionOf, FitsSpeaker, HasCopy, Speechless;
    var sem := NoAnswerSemantics(pack, ladder, l, Silence);
    FailuresStayFew(ladder, sem);
    NoClaimsFit(pack, Policy(ladder, sem), sem);
    MainSpeech(pack, ladder, sem, HasCopy(Policy(ladder, sem), sem));
  }

  /** A silence lowers the expression level by one. */
  lemma Wait(sc: Scenario, s: LifeState) returns (n: LifeState)
    requires sc.Valid() && Asking(sc) && Live(sc, s) && s.ladder.expression != L0 && CurrentLedger(sc, s).facts == map[]
    ensures Stays(sc, s, n) && CurrentLedger(sc, n) == CurrentLedger(sc, s)
    ensures n.ladder.expression == Lower(s.ladder.expression)
    ensures n.ladder.hint == if s.ladder.expression == L2 then H3 else s.ladder.hint
  {
    hide Scenario.Valid, Asking, Placed, Reached, Inv, AllWritten, Current, CurrentLedger, Proper,
         CannotAnswer, Policy, LifeValid, Askable, Asked, Usable, LadderOk, CompletionOf, Stays, PlainResponse;
    LivePack(sc, s);
    var pack, l := Current(sc, s), CurrentLedger(sc, s);
    SilenceLadder(pack, l, s.ladder);
    n := OpenStep(sc, s, Turn.Turn("t", NoAnswer(Silence)));
  }

  /** Silences lead down to L2. */
  lemma {:induction false} WaitForL2(sc: Scenario, s: LifeState) returns (n: LifeState)
    requires sc.Valid() && Asking(sc) && Live(sc, s) && s.ladder.expression != L0 && CurrentLedger(sc, s).facts == map[]
    ensures Stays(sc, s, n) && CurrentLedger(sc, n) == CurrentLedger(sc, s)
    ensures n.ladder.expression == L2 && n.ladder.hint == s.ladder.hint
    decreases ExpressionSteps(s.ladder.expression)
  {
    hide Scenario.Valid, Asking, Placed, Reached, Current, CurrentLedger, Stays;
    if s.ladder.expression == L2 {
      StaysHere(sc, s);
      n := s;
    } else {
      var m := Wait(sc, s);
      StaysLive(sc, s, m);
      n := WaitForL2(sc, m);
      StaysOn(sc, s, m, n);
    }
  }

  lemma StaysLive(sc: Scenario, s: LifeState, n: LifeState)
    requires Stays(sc, s, n)
    ensures Placed(sc, s) && Live(sc, n) && Current(sc, n) == Current(sc, s) && n.index == s.index
  {}

  /** Silences lead down to joint work. */
  lemma WaitForL0(sc: Scenario, s: LifeState) returns (n: LifeState)
    requires sc.Valid() && Asking(sc) && Live(sc, s) && s.ladder.expression != L0 && CurrentLedger(sc, s).facts == map[]
    ensures Stays(sc, s, n) && CurrentLedger(sc, n) == CurrentLedger(sc, s)
    ensures n.ladder.expression == L0 && n.ladder.hint == H3
  {
    hide Scenario.Valid, Asking, Placed, Reached, Current, CurrentLedger, Stays;
    var m := WaitForL2(sc, s);
    StaysLive(sc, s, m);
    n := Wait(sc, m);
    StaysOn(sc, s, m, n);
  }

  // ----- finishing a task with a given value -----

  /** The turn is interpreted and finishes the task. */
  ghost predicate Completes(sc: Scenario, s: LifeState, t: Turn)
    requires Placed(sc, s)
  {
    InterpretLife(sc, s, t).Ok? && Done(InterpretLife(sc, s, t).value)
  }

  function LedgerAfter(sc: Scenario, s: LifeState, t: Turn): Ledger
    requires Placed(sc, s) && InterpretLife(sc, s, t).Ok?
  {
    InterpretLife(sc, s, t).value.applied.Ledger()
  }

  /** The task can be finished from here with `v` written for `f`. */
  ghost predicate CanLeaveWith(sc: Scenario, s: LifeState, n: LifeState, t: Turn, f: string, v: Value) {
    && Stays(sc, s, n) && Completes(sc, n, t)
    && f in LedgerAfter(sc, n, t).facts && LedgerAfter(sc, n, t).facts[f].value == v
  }

  /** The whole lesson finishes a task from anywhere. */
  lemma FullLesson(sc: Scenario, s: LifeState, keys: seq<Key>) returns (t: Turn)
    requires sc.Valid() && Asking(sc) && Live(sc, s)
    requires Unique(keys) && (forall k | k in keys :: Current(sc, s).Known(k))
    requires forall k | k in Current(sc, s).Required() :: k in keys
    ensures Completes(sc, s, t) && Teaches(Current(sc, s), CurrentLedger(sc, s), keys, LedgerAfter(sc, s, t))
  {
    hide Scenario.Valid, Asking, Placed, Reached, Inv, AllWritten, Current, CurrentLedger, Interpret, Sound, LifeValid,
         Askable, Asked, Usable, Complete, LadderOk, Apply, ClaimsFor, Teaches, Said, TaskPack.Known, TaskPack.Required,
         Verified;
    var pack, l := Current(sc, s), CurrentLedger(sc, s);
    LivePack(sc, s);
    LessonApplies(pack, l, keys, "t");
    SaidIsInterpreted(pack, s.ladder, s.subgoal, l, "t", NoMove, ClaimsFor(keys));
    LessonIsOpen(pack, l, keys, Apply(pack, l, ClaimsFor(keys), "t").value);
    t := Said("t", NoMove, ClaimsFor(keys));
  }

  /** All required targets and one more. */
  lemma AllAnd(pack: TaskPack, k: Key) returns (keys: seq<Key>)
    requires pack.ValidCompletion() && pack.Known(k)
    ensures Unique(keys) && (forall x :: x in keys <==> x in pack.Required() || x == k)
    ensures forall x | x in keys :: pack.Known(x)
  {
    hide TaskPack.Required, TaskPack.ValidCompletion, TaskPack.Known;
    keys := AllOthers(pack, {k}) + [k];
    AllOthersAre(pack, {k});
  }

  lemma ValidParts(pack: TaskPack)
    requires LifeValid(pack)
    ensures pack.ValidCompletion() && pack.ValidQuestions() && pack.ValidChoices() && pack.ValidJoint()
    ensures pack.ValidNotes() && ShortEffects(pack) && |pack.initial.targets| <= 4
    ensures pack.entryLevel in {L4, L2} && forall p | p in pack.l3Plans :: |p.targets| == 1
  {}

  /** A task just entered. */
  ghost predicate Fresh(sc: Scenario, s: LifeState) {
    Live(sc, s) && CurrentLedger(sc, s) == EmptyLedger(Current(sc, s)) && s.ladder == EntryLadder(Current(sc, s))
  }

  /** Speech leaves a fact with its own value. */
  lemma SayValue(sc: Scenario, s: LifeState, f: string) returns (t: Turn)
    requires sc.Valid() && Asking(sc) && Live(sc, s) && f in Current(sc, s).facts && f !in CurrentLedger(sc, s).facts
    ensures Stays(sc, s, s) && CanLeaveWith(sc, s, s, t, f, Current(sc, s).facts[f].value)
  {
    hide Scenario.Valid, Asking, Placed, Reached, Inv, AllWritten, Current, CurrentLedger, Interpret, LifeValid,
         Askable, Asked, Usable, Complete, LadderOk, Stays;
    LivePack(sc, s);
    ValidParts(Current(sc, s));
    hide TaskPack.ValidCompletion, TaskPack.ValidQuestions, TaskPack.ValidChoices, TaskPack.ValidJoint,
         TaskPack.ValidNotes;
    var keys := AllAnd(Current(sc, s), TargetKey(FactTarget, f));
    hide TaskPack.Required;
    t := FullLesson(sc, s, keys);
    StaysHere(sc, s);
    TaughtFact(Current(sc, s), CurrentLedger(sc, s), keys, LedgerAfter(sc, s, t), f);
  }

  lemma TaughtFact(pack: TaskPack, l: Ledger, keys: seq<Key>, m: Ledger, f: string)
    requires Teaches(pack, l, keys, m)
    ensures TargetKey(FactTarget, f) in keys ==> f in m.facts
    ensures f in m.facts && f !in l.facts ==> f in pack.facts && m.facts[f].value == pack.facts[f].value
    ensures f in l.facts ==> f in m.facts && m.facts[f].value == l.facts[f].value
    ensures f in m.facts <==> f in l.facts || TargetKey(FactTarget, f) in keys
  {
    assert TargetKey(FactTarget, f) in Verified(m) <==> f in m.facts;
    assert TargetKey(FactTarget, f) in Verified(l) <==> f in l.facts;
  }

  lemma UniqueValue(values: seq<(string, Value)>, f: string, v: Value, w: Value)
    requires UniqueFactIds(values) && (f, v) in values && (f, w) in values
    ensures v == w
  {}

  /** The joint action leaves a required fact with its pinned value. */
  lemma JointValue(sc: Scenario, s: LifeState, f: string, v: Value) returns (n: LifeState, t: Turn)
    requires sc.Valid() && Asking(sc) && Live(sc, s) && s.ladder.expression != L0
    requires CurrentLedger(sc, s).facts == map[]
    requires JointFact(f, v) in Current(sc, s).joint && f !in CurrentLedger(sc, s).facts
    ensures CanLeaveWith(sc, s, n, t, f, v)
  {
    hide Scenario.Valid, Asking, Placed, Reached, Inv, AllWritten, Current, CurrentLedger, Interpret, LifeValid,
         Askable, Asked, Usable, Complete, LadderOk, Live, Stays, CompletionValues;
    n := WaitForL0(sc, s);
    StaysLive(sc, s, n);
    LivePack(sc, n);
    var pack := Current(sc, n);
    ValidParts(pack);
    t := Turn.Turn("t", Action(CompletionValues(pack.joint)));
    HomeRuns.JointIsInterpreted(pack, n.ladder, n.subgoal, CurrentLedger(sc, n), "t", CompletionValues(pack.joint));
    JointWrites(pack, n.ladder, n.subgoal, CurrentLedger(sc, n), t, f, v);
  }

  lemma JointWrites(pack: TaskPack, ladder: Ladder, subgoal: string, l: Ledger, t: Turn, f: string, v: Value)
    requires (forall p | p in pack.l3Plans :: |p.targets| == 1)
    requires pack.ValidCompletion() && pack.ValidJoint() && pack.ValidNotes()
    requires t.input.Action? && Interpret(pack, ladder, subgoal, l, t).Ok? && JointFact(f, v) in pack.joint
    requires f !in l.facts
    ensures var m := Interpret(pack, ladder, subgoal, l, t).value.applied.Ledger();
            f in m.facts && m.facts[f].value == v
  {
    HomeRuns.JointValuesMatch(pack);
    hide TaskPack.ValidCompletion, TaskPack.ValidJoint, TaskPack.ValidNotes, ApplyStructured, SameJson,
         CompletionValues, JointValues, JointlyPerformed;
    var values := JointValues(pack.joint);
    assert (f, v) in values;
    StructuredWrites(pack, l, values, JointlyPerformed(pack), t.id, JointSource, f);
    var m := Interpret(pack, ladder, subgoal, l, t).value.applied.Ledger();
    UniqueValue(values, f, v, m.facts[f].value);
  }

  lemma PickSpeaks(pack: TaskPack, ladder: Ladder, sem: Semantics)
    requires sem.response == PlainResponse(LearningResponse, NoSupport, true) && sem.source == StructuredChoice
    requires sem.route == MainRoute && !sem.initialHelp && sem.applied.NewCanonical()
    ensures Proper(ladder, sem) && Policy(ladder, sem).conceptFailures == 0
    ensures CannotAnswer(pack, ladder, sem) <==> !AnswerOnly(sem) && !FitsSpeaker(pack, Policy(ladder, sem), sem)
  {
    hide FitsSpeaker, HasCopy, Speechless, AnswerOnly;
    MainSpeech(pack, ladder, sem, HasCopy(Policy(ladder, sem), sem));
  }

  lemma PickedIsValid(pack: TaskPack, q: L2Plan, c: Choice)
    requires pack.ValidChoices() && q in pack.l2Plans && c in PickedPlan(pack, q).choices && c.effect.correct
    ensures pack.ValidFactValues(c.effect.facts) && Unique(c.effect.relations)
    ensures Elements(c.effect.relations) <= pack.relations
    ensures FindChoice(PickedPlan(pack, q).choices, c.choiceId) == Some(c)
  {
    var p := PickedPlan(pack, q);
    assert pack.ValidEffect(p.target.key, c.effect);
    HomeRuns.PickedChoice(p.choices, c);
  }

  lemma NewFactIsNews(pack: TaskPack, l: Ledger, a: Applied, f: string)
    requires Sound(pack, l, a) && f in a.Ledger().facts && f !in l.facts
    ensures a.NewCanonical()
  {
    VerifiedIsNews(pack, l, a, TargetKey(FactTarget, f));
  }

  /** Only the plan's target and the fact are missing, and every other method the choice shows is known. */
  ghost predicate Prepared(pack: TaskPack, l: Ledger, q: L2Plan, f: string, e: Effect) {
    && Remaining(pack, l) <= LeftOpen(pack, q, f) && f !in l.facts
    && forall r | r in e.relations :: r in l.relations || q.target.key == TargetKey(RelationTarget, r)
  }

  /** A choice that shows no new method and writes the fact is a bare answer. */
  lemma NoMethodIsAnswer(pack: TaskPack, l: Ledger, f: string, sem: Semantics)
    requires Sound(pack, l, sem.applied) && sem.applied.progress.newPartials == []
    requires f in sem.applied.Ledger().facts && f !in l.facts
    requires sem.applied.Ledger().relations.Keys == l.relations.Keys
    ensures AnswerOnly(sem)
  {
    hide WellFormed, BoundTo, CompletionOf, Extends;
    var p := sem.applied.progress;
    assert f in Elements(p.newFacts);
    HomeRuns.NothingIn(p.newRelations);
  }

  /** A choice that verifies all that is open finishes the task. */
  lemma AllOpenCompletes(pack: TaskPack, l: Ledger, open: set<Key>, a: Applied)
    requires Sound(pack, l, a) && Remaining(pack, l) <= open && open <= Verified(a.Ledger())
    ensures a.completion.Complete()
  {
    hide WellFormed, BoundTo, CompletionOf, ExactDelta, TaskPack.Required;
    ExtendsVerified(a.Ledger(), l);
    assert forall k | k in pack.Required() :: k in Verified(l) || k in Remaining(pack, l);
  }

  /** A prepared choice that writes the fact finishes the task or is a bare answer. */
  lemma PreparedPick(pack: TaskPack, l: Ledger, q: L2Plan, f: string, e: Effect, sem: Semantics)
    requires Prepared(pack, l, q, f, e) && Sound(pack, l, sem.applied) && sem.applied.progress.newPartials == []
    requires f in sem.applied.Ledger().facts
    requires sem.applied.Ledger().relations.Keys == l.relations.Keys + Elements(e.relations)
    ensures sem.applied.completion.Complete() || AnswerOnly(sem)
  {
    hide Sound, AnswerOnly, Remaining;
    if forall r | r in e.relations :: r in l.relations {
      assert Elements(e.relations) <= l.relations.Keys;
      NoMethodIsAnswer(pack, l, f, sem);
    } else {
      var r :| r in e.relations && r !in l.relations;
      assert r in Elements(e.relations);
      AllOpenCompletes(pack, l, LeftOpen(pack, q, f), sem.applied);
    }
  }

  /** Picking the prepared choice that writes the value. */
  lemma PickValue(pack: TaskPack, ladder: Ladder, subgoal: string, l: Ledger, q: L2Plan, f: string, v: Value, c: Choice)
      returns (t: Turn)
    requires (forall p | p in pack.l3Plans :: |p.targets| == 1) && pack.ValidChoices() && Usable(pack, l)
    requires ladder.expression == L2 && Asked(pack, L2, subgoal, l) && ShownPlan(pack, l) == Some(q)
    requires q in pack.l2Plans && Prepared(pack, l, q, f, c.effect)
    requires c in PickedPlan(pack, q).choices && !c.disabled && c.effect.correct && (f, v) in c.effect.facts
    ensures var r := Interpret(pack, ladder, subgoal, l, t);
            && r.Ok? && f in r.value.applied.Ledger().facts && r.value.applied.Ledger().facts[f].value == v
            && Sound(pack, l, r.value.applied) && Proper(ladder, r.value)
            && (r.value.applied.completion.Complete() || !CannotAnswer(pack, ladder, r.value))
  {
    PickedIsValid(pack, q, c);
    AskedPlan(pack, ladder, subgoal, l);
    hide TaskPack.ValidChoices, ApplyStructured, Sound, Interpret, ActiveL2Plan, Asked, ShownPlan, FindChoice,
         PickedPlan, Proper, CannotAnswer, WellFormed, BoundTo, PlainResponse, Prepared, AnswerOnly;
    t := Turn.Turn("t", Pick([c.choiceId]));
    ReviewedProgressApplies(pack, l, c.effect.facts, c.effect.relations, "t", ChoiceSource);
    HomeRuns.PickIsInterpreted(pack, ladder, subgoal, l, t, PickedPlan(pack, q), c);
    ApplyStructuredIsSound(pack, l, c.effect.facts, c.effect.relations, "t", ChoiceSource);
    StructuredWrites(pack, l, c.effect.facts, c.effect.relations, "t", ChoiceSource, f);
    var sem := Interpret(pack, ladder, subgoal, l, t).value;
    assert f !in l.facts by { PreparedOpen(pack, l, q, f, c.effect); }
    UniqueValue(c.effect.facts, f, v, sem.applied.Ledger().facts[f].value);
    NewFactIsNews(pack, l, sem.applied, f);
    PickSpeaks(pack, ladder, sem);
    PreparedPick(pack, l, q, f, c.effect, sem);
  }

  lemma PreparedOpen(pack: TaskPack, l: Ledger, q: L2Plan, f: string, e: Effect)
    requires Prepared(pack, l, q, f, e)
    ensures f !in l.facts
  {}

  /** The plan's question is on screen at L2, with just its target and the fact missing and the listed methods known. */
  ghost predicate OnScreen(sc: Scenario, s: LifeState, n: LifeState, q: L2Plan, f: string, methods: seq<string>) {
    && Stays(sc, s, n) && n.ladder.expression == L2
    && ShownPlan(Current(sc, n), CurrentLedger(sc, n)) == Some(q) && f !in CurrentLedger(sc, n).facts
    && Remaining(Current(sc, n), CurrentLedger(sc, n)) == LeftOpen(Current(sc, n), q, f)
    && forall r | r in methods :: r in CurrentLedger(sc, n).relations || q.target.key == TargetKey(RelationTarget, r)
  }

  /** The listed methods, but for the target's. */
  function MethodKeys(methods: seq<string>, q: L2Plan): seq<Key> {
    Others(methods, RelationTarget, {q.target.key})
  }

  /** The keys of the three lessons that prepare a plan: required methods, further methods, required facts. */
  function PreparedKeys(pack: TaskPack, q: L2Plan, f: string, methods: seq<string>): (seq<Key>, seq<Key>, seq<Key>) {
    var open := LeftOpen(pack, q, f);
    (Others(pack.requiredRelations, RelationTarget, open), MethodKeys(methods, q),
     Others(pack.requiredFacts, FactTarget, open))
  }

  /** Each can be said in one turn, and together they are all that is required but for what stays open. */
  lemma LessonKeys(pack: TaskPack, q: L2Plan, f: string, methods: seq<string>)
    requires pack.ValidCompletion() && pack.ValidQuestions() && |pack.initial.targets| <= 4 && q in pack.l2Plans
    requires Unique(methods) && |methods| <= 8 && forall r | r in methods :: r in pack.relations
    ensures var (rs, more, fs) := PreparedKeys(pack, q, f, methods);
            var open := LeftOpen(pack, q, f);
            && Small(rs, RelationTarget) && Small(more, RelationTarget) && Small(fs, FactTarget)
            && Outside(pack, rs, open) && Outside(pack, more, open) && Outside(pack, fs, open)
            && (forall k | k in pack.Required() :: k in rs || k in fs || k in open)
            && (forall r | r in methods :: TargetKey(RelationTarget, r) in more
                                           || q.target.key == TargetKey(RelationTarget, r))
  {
    hide TaskPack.ValidQuestions, LeftOpen, Small;
    var open := LeftOpen(pack, q, f);
    SmallOthers(pack, pack.requiredRelations, RelationTarget, open);
    SmallOthers(pack, pack.requiredFacts, FactTarget, open);
    SmallMethods(methods, q);
    MoreIsOutside(pack, q, f, methods);
  }

  ghost predicate Small(keys: seq<Key>, kind: TargetKind) {
    Unique(keys) && |keys| <= MAX_SIGNAL_IDS && forall k | k in keys :: k.kind == kind
  }

  ghost predicate Outside(pack: TaskPack, keys: seq<Key>, open: set<Key>) {
    forall k | k in keys :: pack.Known(k) && k !in open
  }

  lemma SmallIsSayable(l: Ledger, keys: seq<Key>, kind: TargetKind)
    requires Small(keys, kind) && (kind == FactTarget || l.facts == map[])
    ensures Sayable(l, keys)
  {}

  lemma SmallOthers(pack: TaskPack, ids: seq<string>, kind: TargetKind, open: set<Key>)
    requires pack.ValidCompletion() && pack.ValidQuestions() && |pack.initial.targets| <= 4
    requires (ids, kind) in {(pack.requiredRelations, RelationTarget), (pack.requiredFacts, FactTarget)}
    ensures Small(Others(ids, kind, open), kind)
  {
    OthersUnique(ids, kind, open);
    FewRequired(pack, Others(ids, kind, open));
  }

  lemma SmallMethods(methods: seq<string>, q: L2Plan)
    requires Unique(methods) && |methods| <= 8
    ensures Small(MethodKeys(methods, q), RelationTarget)
  {
    OthersUnique(methods, RelationTarget, {q.target.key});
    OthersAreFew(methods, RelationTarget, {q.target.key});
  }

  lemma {:induction false} OthersAreFew(ids: seq<string>, kind: TargetKind, skip: set<Key>)
    ensures |Others(ids, kind, skip)| <= |ids|
  {
    if ids != [] { OthersAreFew(ids[1..], kind, skip); }
  }

  lemma MoreIsOutside(pack: TaskPack, q: L2Plan, f: string, methods: seq<string>)
    ensures forall k | k in MethodKeys(methods, q) :: k !in LeftOpen(pack, q, f)
  {}

  /** There are at most four required targets. */
  lemma FewRequired(pack: TaskPack, keys: seq<Key>)
    requires pack.ValidQuestions() && |pack.initial.targets| <= 4 && Unique(keys)
    requires forall k | k in keys :: k in pack.Required()
    ensures |keys| <= MAX_SIGNAL_IDS
  {
    var all := seq(|pack.initial.targets|, i requires 0 <= i < |pack.initial.targets| => pack.initial.targets[i].key);
    forall k | k in keys ensures k in all {
      assert k in (set t | t in pack.initial.targets :: t.key);
      var t :| t in pack.initial.targets && t.key == k;
      var i :| 0 <= i < |pack.initial.targets| && pack.initial.targets[i] == t;
      assert all[i] == k;
    }
    hide TaskPack.ValidQuestions, TaskPack.Required;
    UniqueCardinality(keys);
    FewElements(all);
    assert Elements(keys) <= Elements(all);
    SubsetCardinality(Elements(keys), Elements(all));
  }

  lemma TeachesOn(pack: TaskPack, l: Ledger, some: seq<Key>, m: Ledger, more: seq<Key>, n: Ledger)
    requires Teaches(pack, l, some, m) && Teaches(pack, m, more, n)
    ensures Teaches(pack, l, some + more, n)
  {
    forall f ensures f in n.facts <==> TargetKey(FactTarget, f) in Verified(n) {}
    forall f ensures f in m.facts <==> TargetKey(FactTarget, f) in Verified(m) {}
    hide Verified;
  }

  /** What the lessons leave. */
  lemma LeavesOpen(pack: TaskPack, l: Ledger, q: L2Plan, f: string, methods: seq<string>, m: Ledger)
    requires pack.ValidCompletion() && pack.ValidQuestions() && |pack.initial.targets| <= 4 && q in pack.l2Plans
    requires Unique(methods) && |methods| <= 8 && forall r | r in methods :: r in pack.relations
    requires Remaining(pack, l) == pack.Required() && l.facts == map[]
    requires var (rs, more, fs) := PreparedKeys(pack, q, f, methods); Teaches(pack, l, rs + more + fs, m)
    ensures Remaining(pack, m) == LeftOpen(pack, q, f) && f !in m.facts && m.partials.Keys == l.partials.Keys
    ensures forall r | r in methods :: r in m.relations || q.target.key == TargetKey(RelationTarget, r)
  {
    hide TaskPack.Required, TaskPack.Known, Small, LeftOpen, MethodKeys, Others, PreparedKeys, Remaining, Teaches,
         Verified;
    LessonKeys(pack, q, f, methods);
    OpenIsRequired(pack, q, f);
    var (rs, more, fs) := PreparedKeys(pack, q, f, methods);
    var keys := rs + more + fs;
    assert forall k :: k in keys <==> k in rs || k in more || k in fs;
    hide TaskPack.ValidQuestions, TaskPack.ValidCompletion;
    TaughtRemains(pack, l, keys, m);
    assert Remaining(pack, m) == LeftOpen(pack, q, f);
    FactStaysOpen(pack, q, f, methods);
    TaughtLedger(pack, l, keys, m, f);
    forall r | r in methods && q.target.key != TargetKey(RelationTarget, r) ensures r in m.relations {
      TaughtLedger(pack, l, keys, m, r);
    }
  }

  /** Membership in the ledger after a lesson. */
  lemma TaughtLedger(pack: TaskPack, l: Ledger, keys: seq<Key>, m: Ledger, x: string)
    requires Teaches(pack, l, keys, m) && l.facts == map[]
    ensures x in m.facts <==> TargetKey(FactTarget, x) in keys
    ensures TargetKey(RelationTarget, x) in keys ==> x in m.relations
    ensures m.partials.Keys == l.partials.Keys
  {
    assert TargetKey(FactTarget, x) in Verified(m) <==> x in m.facts;
    assert TargetKey(FactTarget, x) !in Verified(l);
    assert TargetKey(RelationTarget, x) in Verified(m) <==> x in m.relations;
  }

  lemma FactStaysOpen(pack: TaskPack, q: L2Plan, f: string, methods: seq<string>)
    ensures var (rs, more, fs) := PreparedKeys(pack, q, f, methods); TargetKey(FactTarget, f) !in rs + more + fs
  {}

  lemma OpenIsRequired(pack: TaskPack, q: L2Plan, f: string)
    requires pack.ValidQuestions() && q in pack.l2Plans
    ensures LeftOpen(pack, q, f) <= pack.Required() && q.target.key in LeftOpen(pack, q, f)
  {}

  /** Three lessons leave just the plan's target and the fact open. */
  lemma Prepare(sc: Scenario, s: LifeState, q: L2Plan, f: string, methods: seq<string>) returns (n: LifeState)
    requires sc.Valid() && Asking(sc) && Live(sc, s) && CurrentLedger(sc, s).facts == map[]
    requires q in Current(sc, s).l2Plans
    requires Unique(methods) && |methods| <= 8 && forall r | r in methods :: r in Current(sc, s).relations
    requires Remaining(Current(sc, s), CurrentLedger(sc, s)) == Current(sc, s).Required()
    ensures Stays(sc, s, n) && n.ladder.expression == s.ladder.expression
    ensures Remaining(Current(sc, n), CurrentLedger(sc, n)) == LeftOpen(Current(sc, n), q, f)
    ensures f !in CurrentLedger(sc, n).facts && CurrentLedger(sc, n).partials.Keys == CurrentLedger(sc, s).partials.Keys
    ensures forall r | r in methods ::
              r in CurrentLedger(sc, n).relations || q.target.key == TargetKey(RelationTarget, r)
  {
    hide Scenario.Valid, Asking, Placed, Reached, Inv, AllWritten, Current, CurrentLedger, LifeValid, Askable, Asked,
         Usable, Complete, Stays, Remaining, Teaches, TaskPack.Known, LeftOpen, MethodKeys, Others, LadderOk,
         PreparedKeys, Small, Sayable;
    var pack, l := Current(sc, s), CurrentLedger(sc, s);
    LivePack(sc, s);
    ValidParts(pack);
    LessonKeys(pack, q, f, methods);
    OpenIsRequired(pack, q, f);
    var (rs, more, fs) := PreparedKeys(pack, q, f, methods);
    hide TaskPack.ValidCompletion, TaskPack.ValidQuestions, TaskPack.ValidChoices, TaskPack.ValidJoint,
         TaskPack.ValidNotes, TaskPack.Required;
    SmallIsSayable(l, rs, RelationTarget);
    var a := TeachWhile(sc, s, rs, q.target.key);
    SmallTeachesNoFacts(pack, l, rs, CurrentLedger(sc, a));
    SmallIsSayable(CurrentLedger(sc, a), more, RelationTarget);
    var b := TeachWhile(sc, a, more, q.target.key);
    SmallIsSayable(CurrentLedger(sc, b), fs, FactTarget);
    n := TeachWhile(sc, b, fs, q.target.key);
    StaysOn(sc, s, a, b);
    StaysOn(sc, s, b, n);
    TeachesOn(pack, l, rs, CurrentLedger(sc, a), more, CurrentLedger(sc, b));
    TeachesOn(pack, l, rs + more, CurrentLedger(sc, b), fs, CurrentLedger(sc, n));
    LeavesOpen(pack, l, q, f, methods, CurrentLedger(sc, n));
  }

  lemma SmallTeachesNoFacts(pack: TaskPack, l: Ledger, keys: seq<Key>, m: Ledger)
    requires Small(keys, RelationTarget) && Teaches(pack, l, keys, m) && l.facts == map[]
    ensures m.facts == map[]
  {
    hide Teaches;
    StillNoFacts(pack, l, keys, m);
  }

  /** A lesson that leaves the given target open. */
  lemma TeachWhile(sc: Scenario, s: LifeState, keys: seq<Key>, k: Key) returns (n: LifeState)
    requires sc.Valid() && Asking(sc) && Live(sc, s) && Sayable(CurrentLedger(sc, s), keys)
    requires (forall x | x in keys :: Current(sc, s).Known(x)) && k !in keys
    requires k in Remaining(Current(sc, s), CurrentLedger(sc, s))
    ensures Stays(sc, s, n) && Teaches(Current(sc, s), CurrentLedger(sc, s), keys, CurrentLedger(sc, n))
    ensures Placed(sc, s) && Live(sc, n) && Current(sc, n) == Current(sc, s)
    ensures n.ladder.expression == s.ladder.expression && k in Remaining(Current(sc, n), CurrentLedger(sc, n))
  {
    hide Scenario.Valid, Asking, Placed, Reached, Current, CurrentLedger, Stays, Remaining, Teaches, TaskPack.Known,
         Sayable;
    n := Teach(sc, s, keys);
    StaysLive(sc, s, n);
    TaughtRemains(Current(sc, s), CurrentLedger(sc, s), keys, CurrentLedger(sc, n));
  }

  /** At L2 the prepared plan is on screen. */
  lemma ComesOnScreen(sc: Scenario, s: LifeState, n: LifeState, q: L2Plan, f: string, methods: seq<string>)
    requires sc.Valid() && Asking(sc) && Stays(sc, s, n) && n.ladder.expression == L2
    requires q in Current(sc, n).l2Plans && AskedBefore(Current(sc, n), q.target.key, f)
    requires f !in CurrentLedger(sc, n).facts
    requires Remaining(Current(sc, n), CurrentLedger(sc, n)) == LeftOpen(Current(sc, n), q, f)
    requires q.target.key.kind == RelationTarget && f in Current(sc, n).requiredFacts ==>
               q.target.key.id in CurrentLedger(sc, n).partials
    requires forall r | r in methods ::
               r in CurrentLedger(sc, n).relations || q.target.key == TargetKey(RelationTarget, r)
    ensures OnScreen(sc, s, n, q, f, methods)
  {
    hide Scenario.Valid, Asking, Placed, Reached, Inv, AllWritten, Current, CurrentLedger, LifeValid, Askable, Asked,
         Usable, Complete, Stays, Remaining, AskedBefore, ShownPlan, LeftOpen;
    StaysLive(sc, s, n);
    LivePack(sc, n);
    ValidParts(Current(sc, n));
    hide TaskPack.ValidCompletion, TaskPack.ValidQuestions, TaskPack.ValidChoices, TaskPack.ValidJoint,
         TaskPack.ValidNotes;
    PlanIsShown(Current(sc, n), q, f, CurrentLedger(sc, n));
  }

  /** Silences and, for a method that could be asked after the fact, a half of it. */
  lemma Approach(sc: Scenario, s: LifeState, q: L2Plan, f: string) returns (n: LifeState)
    requires sc.Valid() && Asking(sc) && Fresh(sc, s) && q in Current(sc, s).l2Plans
    ensures Stays(sc, s, n) && n.ladder.expression == L2 && CurrentLedger(sc, n).facts == map[]
    ensures Remaining(Current(sc, n), CurrentLedger(sc, n)) == Current(sc, n).Required()
    ensures q.target.key.kind == RelationTarget && f in Current(sc, n).requiredFacts ==>
              q.target.key.id in CurrentLedger(sc, n).partials
  {
    hide Scenario.Valid, Asking, Placed, Reached, Inv, AllWritten, Current, CurrentLedger, LifeValid, Askable, Asked,
         Usable, Complete, Stays, Remaining, LadderOk;
    LivePack(sc, s);
    var pack := Current(sc, s);
    ValidParts(pack);
    PlanIsKnown(pack, q);
    hide TaskPack.ValidCompletion, TaskPack.ValidQuestions, TaskPack.ValidChoices, TaskPack.ValidJoint,
         TaskPack.ValidNotes, TaskPack.Required;
    NothingVerifiedYet(pack);
    var m := WaitForL2(sc, s);
    StaysLive(sc, s, m);
    if q.target.key.kind == RelationTarget && f in pack.requiredFacts {
      n := TryHalf(sc, m, q.target.key.id);
      StaysLive(sc, m, n);
      StaysOn(sc, s, m, n);
      SameVerified(pack, CurrentLedger(sc, m), CurrentLedger(sc, n));
    } else {
      n := m;
    }
  }

  lemma NothingVerifiedYet(pack: TaskPack)
    ensures Remaining(pack, EmptyLedger(pack)) == pack.Required()
  {}

  lemma PlanIsKnown(pack: TaskPack, q: L2Plan)
    requires pack.ValidCompletion() && pack.ValidQuestions() && q in pack.l2Plans
    ensures q.target.key.kind == RelationTarget ==> q.target.key.id in pack.relations
  {
    RequiredKnown(pack, q.target.key);
  }

  /** A fresh task can be brought to where the plan is on screen while the fact is open and up to eight further methods
      are known, whatever the labels: methods are taught while no fact is, and facts as bare answers. */
  lemma BringOnScreen(sc: Scenario, s: LifeState, q: L2Plan, f: string, methods: seq<string>) returns (n: LifeState)
    requires sc.Valid() && Asking(sc) && Fresh(sc, s)
    requires q in Current(sc, s).l2Plans && AskedBefore(Current(sc, s), q.target.key, f)
    requires Unique(methods) && |methods| <= 8 && forall r | r in methods :: r in Current(sc, s).relations
    ensures OnScreen(sc, s, n, q, f, methods)
  {
    hide Scenario.Valid, Asking, Placed, Reached, Current, CurrentLedger, Stays, Remaining, AskedBefore, OnScreen,
         LeftOpen, Fresh, TaskPack.Required;
    var m := Approach(sc, s, q, f);
    StaysLive(sc, s, m);
    n := Prepare(sc, m, q, f, methods);
    StaysLive(sc, m, n);
    StaysOn(sc, s, m, n);
    ComesOnScreen(sc, s, n, q, f, methods);
  }

  /** What a choice on screen is prepared for. */
  lemma ScreenIsPrepared(sc: Scenario, s: LifeState, n: LifeState, q: L2Plan, f: string, e: Effect)
    requires OnScreen(sc, s, n, q, f, e.relations)
    ensures Prepared(Current(sc, n), CurrentLedger(sc, n), q, f, e)
    ensures Stays(sc, s, n) && n.ladder.expression == L2
    ensures ShownPlan(Current(sc, n), CurrentLedger(sc, n)) == Some(q) && f !in CurrentLedger(sc, n).facts
  {
    hide Placed, Reached, Current, CurrentLedger, Stays, Remaining, LeftOpen, ShownPlan;
  }

  /** A choice leaves a fact with the value it writes. */
  lemma ChoiceValue(sc: Scenario, s: LifeState, q: L2Plan, f: string, v: Value) returns (n: LifeState, t: Turn)
    requires sc.Valid() && Asking(sc) && Fresh(sc, s) && PickWrites(Current(sc, s), q, f, v)
    ensures CanLeaveWith(sc, s, n, t, f, v)
  {
    hide Scenario.Valid, Asking, Placed, Reached, Inv, AllWritten, Current, CurrentLedger, LifeValid, Askable, Asked,
         Usable, Complete, Stays, Remaining, AskedBefore, Teaches, AllOthers, TaskPack.Known, Interpret, Done,
         ShownPlan, Sound, ChoiceWrites, Proper, CannotAnswer, OnScreen, Prepared, LadderOk, Fresh;
    FreshIsAboveL0(sc, s);
    var c := WritingChoice(sc, s, q, f, v);
    var m := BringOnScreen(sc, s, q, f, c.effect.relations);
    ScreenIsPrepared(sc, s, m, q, f, c.effect);
    StaysLive(sc, s, m);
    LivePack(sc, m);
    var pack := Current(sc, m);
    ValidParts(pack);
    hide TaskPack.ValidQuestions, TaskPack.ValidChoices, TaskPack.ValidJoint, TaskPack.ValidNotes,
         TaskPack.ValidCompletion;
    var pick := PickValue(pack, m.ladder, m.subgoal, CurrentLedger(sc, m), q, f, v, c);
    n, t := AfterPick(sc, s, m, pick, f, v);
  }

  /** Once the value is written, a full lesson finishes the task with it, if the pick did not. */
  lemma AfterPick(sc: Scenario, s: LifeState, m: LifeState, pick: Turn, f: string, v: Value)
      returns (n: LifeState, t: Turn)
    requires sc.Valid() && Asking(sc) && Stays(sc, s, m) && InterpretLife(sc, m, pick).Ok?
    requires var sem := InterpretLife(sc, m, pick).value;
             && f in sem.applied.Ledger().facts && sem.applied.Ledger().facts[f].value == v && Proper(m.ladder, sem)
             && (sem.applied.completion.Complete() || !CannotAnswer(Current(sc, m), m.ladder, sem))
    ensures CanLeaveWith(sc, s, n, t, f, v)
  {
    hide Scenario.Valid, Asking, Placed, Reached, Inv, AllWritten, Current, CurrentLedger, LifeValid, Askable, Asked,
         Usable, Complete, Stays, Teaches, AllOthers, TaskPack.Known, Interpret, Proper, CannotAnswer, LadderOk;
    StaysLive(sc, s, m);
    if Completes(sc, m, pick) {
      n, t := m, pick;
    } else {
      n := OpenStep(sc, m, pick);
      StaysOn(sc, s, m, n);
      StaysLive(sc, m, n);
      LivePack(sc, n);
      var pack := Current(sc, n);
      ValidParts(pack);
      hide TaskPack.ValidQuestions, TaskPack.ValidChoices, TaskPack.ValidJoint, TaskPack.ValidNotes;
      AllOthersAre(pack, {});
      t := FullLesson(sc, n, AllOthers(pack, {}));
      TaughtFact(pack, CurrentLedger(sc, n), AllOthers(pack, {}), LedgerAfter(sc, n, t), f);
    }
  }

  /** The choice that writes the value, with few enough methods. */
  lemma WritingChoice(sc: Scenario, s: LifeState, q: L2Plan, f: string, v: Value) returns (c: Choice)
    requires sc.Valid() && Asking(sc) && Live(sc, s) && PickWrites(Current(sc, s), q, f, v)
    ensures q in Current(sc, s).l2Plans && AskedBefore(Current(sc, s), q.target.key, f)
    ensures c in PickedPlan(Current(sc, s), q).choices && !c.disabled && c.effect.correct && (f, v) in c.effect.facts
    ensures Unique(c.effect.relations) && |c.effect.relations| <= 8
    ensures forall r | r in c.effect.relations :: r in Current(sc, s).relations
  {
    hide Scenario.Valid, Asking, Placed, Reached, Inv, AllWritten, Current, CurrentLedger, Askable, Asked, Usable,
         Complete, AskedBefore, PickedPlan, LadderOk;
    LivePack(sc, s);
    var pack := Current(sc, s);
    ValidParts(pack);
    assert ShortEffects(pack);
    hide LifeValid, TaskPack.ValidQuestions, TaskPack.ValidJoint, TaskPack.ValidNotes, TaskPack.ValidCompletion;
    c :| c in PickedPlan(pack, q).choices && !c.disabled && c.effect.correct && (f, v) in c.effect.facts;
    PickedIsPlan(pack, q);
    assert pack.ValidEffect(PickedPlan(pack, q).target.key, c.effect);
    assert forall r | r in c.effect.relations :: r in Elements(c.effect.relations);
  }

  lemma PickedIsPlan(pack: TaskPack, q: L2Plan)
    requires q in pack.l2Plans
    ensures PickedPlan(pack, q) in pack.l2Plans
  {}

  lemma FreshIsAboveL0(sc: Scenario, s: LifeState)
    requires sc.Valid() && Asking(sc) && Fresh(sc, s)
    ensures Live(sc, s) && s.ladder.expression != L0
  {
    hide Scenario.Valid, Asking, Placed, Reached, Inv, AllWritten, Current, CurrentLedger, LifeValid, Askable, Asked,
         Usable, Complete;
    LivePack(sc, s);
    ValidParts(Current(sc, s));
  }

  /** Every writable value is written in some conversation: the task just entered can be finished with it. */
  lemma EveryValueIsWritten(sc: Scenario, s: LifeState, f: string, v: Value) returns (n: LifeState, t: Turn)
    requires sc.Valid() && Asking(sc) && Fresh(sc, s) && Writable(Current(sc, s), f, v)
    ensures CanLeaveWith(sc, s, n, t, f, v)
  {
    hide Scenario.Valid, Asking, Placed, Reached, Current, CurrentLedger, Stays, CanLeaveWith, PickWrites;
    FreshIsAboveL0(sc, s);
    var pack := Current(sc, s);
    if v == pack.facts[f].value {
      t := SayValue(sc, s, f);
      n := s;
    } else if JointFact(f, v) in pack.joint {
      n, t := JointValue(sc, s, f, v);
    } else {
      var q :| PickWrites(pack, q, f, v);
      n, t := ChoiceValue(sc, s, q, f, v);
    }
  }

  // ----- a first help about nothing -----

  lemma HelpIsAsked(pack: TaskPack, ladder: Ladder, l: Ledger)
    requires ladder.expression == L4 && ladder.hint == H0
    requires exists t | t in HelpTargets(pack) :: !pack.Known(t.key)
    ensures var sem := NoAnswerSemantics(pack, ladder, l, ExplicitHelp);
            Proper(ladder, sem) && CannotAnswer(pack, ladder, sem) && sem.applied == Unchanged(pack, l)
  {
    hide HelpTargets, TaskPack.Known, FitsSpeaker, CompletionOf, HasCopy, Policy;
  }

  /** Loading a life task does not check what its first help asks about. Where that is nothing the task knows, every
      child who asks for help before any other help was shown has the turn fail. */
  lemma MisnamedHelpFails(sc: Scenario, s: LifeState, turn: string)
    requires sc.Valid() && Asking(sc) && Live(sc, s) && s.ladder.expression == L4 && s.ladder.hint == H0
    requires exists t | t in HelpTargets(Current(sc, s)) :: !Current(sc, s).Known(t.key)
    ensures NextState(sc, s, Turn.Turn(turn, NoAnswer(ExplicitHelp))).Err?
  {
    hide Scenario.Valid, Asking, Placed, Reached, Inv, AllWritten, Current, CurrentLedger, Sound, Proper,
         CannotAnswer, Policy, LifeValid, Askable, Asked, WellFormed, BoundTo, Complete, LadderOk, Conclude,
         HelpTargets, TaskPack.Known, CompletionOf;
    LivePack(sc, s);
    var pack, l := Current(sc, s), CurrentLedger(sc, s);
    HelpIsAsked(pack, s.ladder, l);
    UnchangedIsSound(pack, l);
    var sem := InterpretLife(sc, s, Turn.Turn(turn, NoAnswer(ExplicitHelp))).value;
    SoundDone(pack, l, sem);
    OpenTurnSucceeds(sc, s, sem);
  }
}
