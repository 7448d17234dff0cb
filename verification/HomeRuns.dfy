/** Guarantees over whole home conversations, for every sequence of responses. */
module HomeRuns {
  import opened Common
  import opened Content
  import opened Ledgers
  import opened LedgerOperations
  import opened Ladders
  import opened Questions
  import opened Turns
  import opened HomeEngine
  import opened Json

  function NoteSet(pack: TaskPack): set<string> { Elements(pack.noteRelations) }

  /** What provenance records: disjoint attributions of note relations, the child's all verified. */
  ghost predicate NotesOk(pack: TaskPack, s: State) {
    && s.childNotes <= NoteSet(pack) && s.supportedNotes <= NoteSet(pack)
    && s.childNotes !! s.supportedNotes
    && s.childNotes <= s.ledger.relations.Keys
    && (s.ladder.hint in {H0, H1} ==> s.supportedNotes <= s.ledger.relations.Keys)
  }

  ghost predicate QuestionBound(pack: TaskPack, s: State)
    requires forall p | p in pack.l3Plans :: |p.targets| == 1
  {
    var q := Ask(pack, false, s.ladder.expression, s.ledger);
    q.Some? && s.subgoal == q.value.subgoal
  }

  ghost predicate Inv(pack: TaskPack, s: State)
    requires HomeValid(pack)
  {
    && Usable(pack, s.ledger)
    && LadderOk(s.ladder)
    && NotesOk(pack, s)
    && (s.completed <==> Complete(pack, s.ledger))
    && (s.completed <==> s.outcome.Some?)
    && (!s.completed ==> !s.jointUsed && QuestionBound(pack, s))
    && (s.reward <==> s.outcome == Some(Taught))
  }

  /** A task starts with something to learn. */
  lemma EmptyLedgerIsOpen(pack: TaskPack)
    requires pack.ValidCompletion()
    ensures Usable(pack, EmptyLedger(pack)) && !Complete(pack, EmptyLedger(pack))
  {}

  lemma InitialShape(pack: TaskPack, level: ExpressionLevel)
    requires (forall p | p in pack.l3Plans :: |p.targets| == 1) && Initial(pack, level).Ok?
    ensures var s := Initial(pack, level).value;
            && s.ledger == EmptyLedger(pack) && s.ladder.expression == level && (level != L0 ==> s.ladder.hint == H0)
                 && LadderOk(s.ladder) && QuestionBound(pack, s)
            && !s.completed && s.childNotes == {} && s.supportedNotes == {}
            && s.outcome == None && !s.reward && !s.jointUsed
  {}

  lemma InitialSatisfiesInv(pack: TaskPack, level: ExpressionLevel)
    requires HomeValid(pack) && Initial(pack, level).Ok?
    ensures Inv(pack, Initial(pack, level).value)
  {
    hide HelpsOnce, HomeChoices, Initial, Complete, Usable, QuestionBound, LadderOk, TaskPack.ValidCompletion,
         TaskPack.ValidSlots, TaskPack.ValidChoices, TaskPack.ValidJoint, TaskPack.ValidNotes;
    EmptyLedgerIsOpen(pack);
    InitialShape(pack, level);
  }

  /** What a sound turn reports as newly verified relations. */
  lemma NewlyVerified(pack: TaskPack, l: Ledger, a: Applied)
    requires Sound(pack, l, a)
    ensures l.relations.Keys <= a.Ledger().relations.Keys
    ensures forall r :: r in a.progress.newRelations <==> r in a.Ledger().relations && r !in l.relations
  {
    hide CompletionOf, WellFormed, BoundTo;
    var added := a.progress.newRelations;
    assert forall r :: r in added <==> r in Elements(added);
  }

  lemma AbsorbKeepsNotes(pack: TaskPack, s: State, sem: Semantics)
    requires LadderOk(s.ladder) && NotesOk(pack, s) && Sound(pack, s.ledger, sem.applied)
    ensures NotesOk(pack, Absorb(pack, s, sem))
    ensures LadderOk(Absorb(pack, s, sem).ladder)
    ensures DirectTurn(sem, s.ladder.hint) ==> NewNotes(pack, sem) !! s.supportedNotes
  {
    hide Policy, Sound, LadderOk;
    PolicyIsMonotone(s.ladder, sem);
    NewlyVerified(pack, s.ledger, sem.applied);
    assert NewNotes(pack, sem) <= NoteSet(pack);
  }

  lemma ConcludeKeepsInv(pack: TaskPack, s: State, sem: Semantics)
    requires HomeValid(pack) && Inv(pack, s) && !s.completed && Sound(pack, s.ledger, sem.applied)
    requires Conclude(pack, s, sem).Ok?
    ensures Inv(pack, Conclude(pack, s, sem).value)
  {
    hide Policy, SpeechFailure, Ask, WellFormed, BoundTo, Extends, ExactDelta, CompletionOf;
    hide HomeValid, ChildNotes, SupportedNotes;
    AbsorbKeepsNotes(pack, s, sem);
    CompleteIffRequiredVerified(pack, sem.applied.Ledger());
    assert Complete(pack, sem.applied.Ledger()) <==> sem.applied.completion.Complete();
  }

  function SemanticsAt(pack: TaskPack, s: State, t: Turn): Semantics
    requires HomeValid(pack)
    requires NextState(pack, s, t).Ok?
  {
    Interpret(pack, s.ladder, s.subgoal, s.ledger, t).value
  }

  /** The semantics of a turn taken in a good state are sound for its ledger. */
  lemma OutcomeIsSound(pack: TaskPack, s: State, t: Turn)
    requires HomeValid(pack) && Inv(pack, s)
    requires NextState(pack, s, t).Ok?
    ensures Sound(pack, s.ledger, SemanticsAt(pack, s, t).applied)
    ensures NextState(pack, s, t) == Conclude(pack, s, SemanticsAt(pack, s, t))
    ensures LadderOk(s.ladder)
  {
    hide Interpret, Conclude, Sound;
    InterpretIsSound(pack, s.ladder, s.subgoal, s.ledger, t);
  }

  /** Every turn keeps the invariant. */
  lemma TurnKeepsInv(pack: TaskPack, s: State, t: Turn)
    requires HomeValid(pack) && Inv(pack, s) && !s.completed
    requires NextState(pack, s, t).Ok?
    ensures Inv(pack, NextState(pack, s, t).value)
  {
    hide Interpret, Conclude, Inv, Sound;
    OutcomeIsSound(pack, s, t);
    ConcludeKeepsInv(pack, s, SemanticsAt(pack, s, t));
  }

  /** A conversation: consecutive states, each reached from an active one by a turn that succeeded. */
  ghost predicate Run(pack: TaskPack, states: seq<State>, turns: seq<Turn>)
    requires HomeValid(pack)
  {
    && |states| == |turns| + 1
    && (forall i {:trigger turns[i]} :: 0 <= i < |turns| ==>
         !states[i].completed && NextState(pack, states[i], turns[i]) == Ok(states[i + 1]))
  }

  ghost predicate RunFromStart(pack: TaskPack, level: ExpressionLevel, states: seq<State>, turns: seq<Turn>)
    requires HomeValid(pack)
  {
    Run(pack, states, turns) && Initial(pack, level) == Ok(states[0])
  }

  lemma {:induction false} RunKeepsInv(pack: TaskPack, states: seq<State>, turns: seq<Turn>, n: nat)
    requires HomeValid(pack) && Run(pack, states, turns) && Inv(pack, states[0]) && n < |states|
    ensures Inv(pack, states[n])
  {
    hide NextState, Inv;
    if n > 0 {
      RunKeepsInv(pack, states, turns, n - 1);
      TurnKeepsInv(pack, states[n - 1], turns[n - 1]);
    }
  }

  // ----- the recorded hint -----

  lemma InitialHint(pack: TaskPack, level: ExpressionLevel)
    requires (forall p | p in pack.l3Plans :: |p.targets| == 1) && Initial(pack, level).Ok?
    ensures var l := Initial(pack, level).value.ladder; l.maxHint == H0 && (l.hint == H0 <==> level != L0)
  {
    hide Ask;
  }

  lemma {:induction false} HintIsRecorded(pack: TaskPack, states: seq<State>, turns: seq<Turn>, n: nat)
    requires HomeValid(pack) && Run(pack, states, turns) && Inv(pack, states[0]) && n < |states|
    requires states[0].ladder.maxHint == states[0].ladder.hint
    ensures states[n].ladder.maxHint == states[n].ladder.hint
  {
    hide NextState, Inv, Policy, Conclude, HomeValid;
    if n > 0 {
      HintIsRecorded(pack, states, turns, n - 1);
      RunKeepsInv(pack, states, turns, n - 1);
      var s, t := states[n - 1], turns[n - 1];
      OutcomeIsSound(pack, s, t);
      ValidAsksOne(pack);
      ConcludeFrame(pack, s, SemanticsAt(pack, s, t));
      PolicyRecords(s.ladder, SemanticsAt(pack, s, t));
    }
  }

  /** Every state of every run from the start records the hint on screen, the highest shown so far. */
  ghost predicate AlwaysRecorded(pack: TaskPack, level: ExpressionLevel)
    requires HomeValid(pack)
  {
    forall states: seq<State>, turns, n: nat | RunFromStart(pack, level, states, turns) && n < |states| ::
      states[n].ladder.maxHint == states[n].ladder.hint
  }

  lemma RecordedAboveJointWork(pack: TaskPack, level: ExpressionLevel)
    requires HomeValid(pack) && Initial(pack, level).Ok? && level != L0
    ensures AlwaysRecorded(pack, level)
  {
    ValidAsksOne(pack);
    InitialHint(pack, level);
    InitialSatisfiesInv(pack, level);
    hide HomeValid, Initial, NextState, Inv;
    forall states: seq<State>, turns, n: nat | RunFromStart(pack, level, states, turns) && n < |states|
      ensures states[n].ladder.maxHint == states[n].ladder.hint
    {
      HintIsRecorded(pack, states, turns, n);
    }
  }

  lemma StartIsRun(pack: TaskPack, level: ExpressionLevel) returns (states: seq<State>)
    requires HomeValid(pack) && Initial(pack, level).Ok?
    ensures RunFromStart(pack, level, states, []) && states == [Initial(pack, level).value]
  {
    hide HomeValid, Initial, NextState;
    ValidAsksOne(pack);
    states := [Initial(pack, level).value];
  }

  /** The maximum hint of the record, from which a task's independence is judged, is the highest hint shown, in every
      state of every run, iff the conversation does not start at joint work: that start shows H3 and records H0. */
  lemma RecordedHintIff(pack: TaskPack, level: ExpressionLevel)
    requires HomeValid(pack) && Initial(pack, level).Ok?
    ensures AlwaysRecorded(pack, level) <==> level != L0
  {
    if level != L0 {
      RecordedAboveJointWork(pack, level);
    } else {
      hide HomeValid, Initial, NextState;
      ValidAsksOne(pack);
      InitialHint(pack, level);
      var states := StartIsRun(pack, level);
      assert states[0].ladder.maxHint != states[0].ladder.hint;
    }
  }

  // ----- termination -----

  /** Targets of the graph nothing has been said about yet, counting a relation's partial attempt separately. */
  function Unsaid(pack: TaskPack, l: Ledger): nat {
    |pack.facts.Keys - l.facts.Keys| + |pack.relations - l.relations.Keys| + |pack.relations - l.partials.Keys|
  }

  /** What a child can still say and be helped with before joint work. */
  function TaskPotential(pack: TaskPack, l: Ledger, ladder: Ladder): int {
    2 * (Unsaid(pack, l) + Steps(ladder)) + (1 - ladder.vague)
  }

  function Potential(pack: TaskPack, s: State): int {
    TaskPotential(pack, s.ledger, s.ladder)
  }

  lemma ShrinkingDifference<T>(all: set<T>, before: set<T>, after: set<T>)
    requires before <= after <= all
    ensures |all - after| <= |all - before|
    ensures before != after ==> |all - after| < |all - before|
  {
    SubsetCardinality(all - after, all - before);
    assert before == all - (all - before) && after == all - (all - after);
  }

  /** A sound turn only adds keys, and adds one whenever it reports progress. */
  lemma ProgressAddsKeys(pack: TaskPack, l: Ledger, a: Applied)
    requires Sound(pack, l, a)
    ensures var m := a.Ledger();
            && l.facts.Keys <= m.facts.Keys <= pack.facts.Keys
            && l.relations.Keys <= m.relations.Keys <= pack.relations
            && l.partials.Keys <= m.partials.Keys <= pack.relations
            && (a.NewCanonical() ==> l.facts.Keys != m.facts.Keys || l.relations.Keys != m.relations.Keys)
            && (a.NewPartial() ==> l.partials.Keys != m.partials.Keys)
  {
    hide WellFormed, CompletionOf;
    var p := a.progress;
    assert p.newFacts != [] ==> p.newFacts[0] in Elements(p.newFacts);
    assert p.newRelations != [] ==> p.newRelations[0] in Elements(p.newRelations);
    assert p.newPartials != [] ==> p.newPartials[0] in Elements(p.newPartials);
  }

  lemma ProgressIsSaid(pack: TaskPack, l: Ledger, a: Applied)
    requires Sound(pack, l, a)
    ensures Unsaid(pack, a.Ledger()) <= Unsaid(pack, l)
    ensures a.NewCanonical() || a.NewPartial() ==> Unsaid(pack, a.Ledger()) < Unsaid(pack, l)
  {
    hide Sound;
    ProgressAddsKeys(pack, l, a);
    var m := a.Ledger();
    ShrinkingDifference(pack.facts.Keys, l.facts.Keys, m.facts.Keys);
    ShrinkingDifference(pack.relations, l.relations.Keys, m.relations.Keys);
    ShrinkingDifference(pack.relations, l.partials.Keys, m.partials.Keys);
  }

  /** What a turn leaves of the ladder and the ledger when it does not finish the task. */
  lemma ConcludeFrame(pack: TaskPack, s: State, sem: Semantics)
    requires forall p | p in pack.l3Plans :: |p.targets| == 1
    requires LadderOk(s.ladder) && Conclude(pack, s, sem).Ok?
    ensures var n := Conclude(pack, s, sem).value;
            n.ladder == Policy(s.ladder, sem) && n.ledger == sem.applied.Ledger()
  {
    hide Policy, SpeechFailure, Ask, CompletionOf, ChildNotes, SupportedNotes;
    PolicyIsMonotone(s.ladder, sem);
  }

  /** Before joint work no turn of a task raises its potential, and every counted turn lowers it. */
  lemma TaskTurnSpends(pack: TaskPack, l: Ledger, ladder: Ladder, sem: Semantics)
    requires Usable(pack, l) && LadderOk(ladder) && ladder.expression != L0 && Sound(pack, l, sem.applied)
    ensures var n := TaskPotential(pack, sem.applied.Ledger(), Policy(ladder, sem));
            n <= TaskPotential(pack, l, ladder) && (sem.Counted() ==> n < TaskPotential(pack, l, ladder))
  {
    hide Sound, Policy, Usable, Unsaid;
    ProgressIsSaid(pack, l, sem.applied);
    PolicyIsMonotone(ladder, sem);
    AnyTurnKeepsSupport(ladder, sem);
    if sem.Counted() && !sem.Progressed() {
      StuckTurnSpendsSupport(ladder, sem);
    }
  }

  /** No turn raises the potential before joint work, and every counted turn lowers it. */
  lemma TurnSpendsPotential(pack: TaskPack, s: State, t: Turn)
    requires HomeValid(pack) && Inv(pack, s) && s.ladder.expression != L0
    requires NextState(pack, s, t).Ok?
    ensures var n := NextState(pack, s, t).value;
            && Potential(pack, n) <= Potential(pack, s)
            && (SemanticsAt(pack, s, t).Counted() ==> Potential(pack, n) < Potential(pack, s))
  {
    hide NextState, Interpret, Conclude, Sound, Policy, TaskPotential, Usable;
    var sem := SemanticsAt(pack, s, t);
    OutcomeIsSound(pack, s, t);
    ConcludeFrame(pack, s, sem);
    TaskTurnSpends(pack, s.ledger, s.ladder, sem);
  }

  /** Counted turns among the first `n`. */
  ghost function CountedTurns(pack: TaskPack, states: seq<State>, turns: seq<Turn>, n: nat): nat
    requires HomeValid(pack) && Run(pack, states, turns) && n <= |turns|
  {
    if n == 0 then 0
    else
      assert NextState(pack, states[n - 1], turns[n - 1]).Ok?;
      CountedTurns(pack, states, turns, n - 1)
      + if SemanticsAt(pack, states[n - 1], turns[n - 1]).Counted() then 1 else 0
  }

  lemma {:induction false} CountedTurnsSpendPotential(pack: TaskPack, states: seq<State>, turns: seq<Turn>, n: nat)
    requires HomeValid(pack) && Run(pack, states, turns) && Inv(pack, states[0]) && n <= |turns|
    requires forall i :: 0 <= i < n ==> states[i].ladder.expression != L0
    ensures CountedTurns(pack, states, turns, n) + Potential(pack, states[n]) <= Potential(pack, states[0])
  {
    hide NextState, Inv, Potential;
    if n > 0 {
      CountedTurnsSpendPotential(pack, states, turns, n - 1);
      RunKeepsInv(pack, states, turns, n - 1);
      TurnSpendsPotential(pack, states[n - 1], turns[n - 1]);
    }
  }

  /** Turns a child can be kept from joint work while the task stays open. */
  function TurnBound(pack: TaskPack): nat {
    2 * (|pack.facts| + 2 * |pack.relations| + 6) + 1
  }

  lemma PotentialIsBounded(pack: TaskPack, l: Ledger, ladder: Ladder)
    requires LadderOk(ladder)
    ensures 0 <= TaskPotential(pack, l, ladder) <= TurnBound(pack)
    ensures ladder.expression != L0 ==> 1 <= TaskPotential(pack, l, ladder)
  {}

  /** A child is kept from joint work for a bounded number of counted turns only. */
  lemma CountedTurnsAreBounded(pack: TaskPack, level: ExpressionLevel, states: seq<State>, turns: seq<Turn>)
    requires HomeValid(pack) && RunFromStart(pack, level, states, turns)
    requires forall s | s in states :: s.ladder.expression != L0
    ensures CountedTurns(pack, states, turns, |turns|) <= TurnBound(pack)
  {
    hide Initial, NextState, TurnBound, CountedTurns, TaskPotential;
    InitialSatisfiesInv(pack, level);
    PotentialIsBounded(pack, states[0].ledger, states[0].ladder);
    CountedTurnsSpendPotential(pack, states, turns, |turns|);
    RunKeepsInv(pack, states, turns, |turns|);
    PotentialIsBounded(pack, states[|turns|].ledger, states[|turns|].ladder);
  }

  /** Every conversation with more counted turns than the bound has reached joint work at L0 with H3, or is over. */
  lemma ConversationsTerminate(pack: TaskPack, level: ExpressionLevel, states: seq<State>, turns: seq<Turn>)
    requires HomeValid(pack) && RunFromStart(pack, level, states, turns)
    requires CountedTurns(pack, states, turns, |turns|) > TurnBound(pack)
    ensures exists s :: s in states && s.ladder.expression == L0 && s.ladder.hint == H3
  {
    hide Initial, NextState, TurnBound, CountedTurns;
    if i :| 0 <= i < |states| && states[i].ladder.expression == L0 {
      InitialSatisfiesInv(pack, level);
      RunKeepsInv(pack, states, turns, i);
    } else {
      CountedTurnsAreBounded(pack, level, states, turns);
    }
  }

  // ----- credit -----

  /** Turn `i` taught note relation `r` directly: free text, begun at H0 or H1, verified it for the first time. */
  ghost predicate TaughtAt(pack: TaskPack, states: seq<State>, turns: seq<Turn>, i: nat, r: string)
    requires HomeValid(pack) && Run(pack, states, turns) && i < |turns|
  {
    var sem := SemanticsAt(pack, states[i], turns[i]);
    && sem.source == SonnetLow && states[i].ladder.hint in {H0, H1}
    && r !in states[i].ledger.relations && r in states[i + 1].ledger.relations
  }

  ghost predicate TaughtBefore(pack: TaskPack, states: seq<State>, turns: seq<Turn>, n: nat, r: string)
    requires HomeValid(pack) && Run(pack, states, turns) && n <= |turns|
  {
    exists i: nat :: i < n && TaughtAt(pack, states, turns, i, r)
  }

  /** The note part of a turn's result. */
  lemma ConcludeNotes(pack: TaskPack, s: State, sem: Semantics)
    requires forall p | p in pack.l3Plans :: |p.targets| == 1
    requires Conclude(pack, s, sem).Ok?
    ensures var n := Conclude(pack, s, sem).value;
            && n.childNotes == ChildNotes(pack, s.childNotes, s.supportedNotes, sem, s.ladder.hint)
            && n.ledger == sem.applied.Ledger()
            && (n.completed && !s.completed ==> sem.applied.completion.Complete())
            && (sem.applied.completion.Complete() ==> n == Finished(pack, Absorb(pack, s, sem), sem.source))
  {}

  lemma NewNotesAreNewlyVerified(pack: TaskPack, l: Ledger, sem: Semantics, r: string)
    requires Sound(pack, l, sem.applied)
    ensures r in NewNotes(pack, sem) <==> r in NoteSet(pack) && r !in l.relations && r in sem.applied.Ledger().relations
  {
    hide WellFormed, Extends, BoundTo, CompletionOf;
    var added := sem.applied.progress.newRelations;
    assert r in added <==> r in Elements(added);
  }

  lemma StepCredits(pack: TaskPack, s: State, t: Turn, r: string)
    requires HomeValid(pack) && Inv(pack, s) && NextState(pack, s, t).Ok?
    ensures var n := NextState(pack, s, t).value;
            var sem := SemanticsAt(pack, s, t);
            r in n.childNotes <==>
            || r in s.childNotes
            || (r in NoteSet(pack) && sem.source == SonnetLow && s.ladder.hint in {H0, H1}
                && r !in s.ledger.relations && r in n.ledger.relations)
  {
    hide NextState, Interpret, Conclude, Sound, NewNotes, NoteSet;
    var sem := SemanticsAt(pack, s, t);
    OutcomeIsSound(pack, s, t);
    ConcludeNotes(pack, s, sem);
    NewNotesAreNewlyVerified(pack, s.ledger, sem, r);
    assert r in s.supportedNotes && s.ladder.hint in {H0, H1} ==> r in s.ledger.relations;
  }

  /** The child is credited with exactly the note relations a direct turn verified first. */
  lemma {:induction false} CreditIsExact(pack: TaskPack, states: seq<State>, turns: seq<Turn>, n: nat, r: string)
    requires HomeValid(pack) && Run(pack, states, turns) && n <= |turns|
    requires Inv(pack, states[0]) && states[0].childNotes == {}
    ensures r in states[n].childNotes <==> r in NoteSet(pack) && TaughtBefore(pack, states, turns, n, r)
  {
    hide NextState, Inv, HomeValid;
    if n > 0 {
      CreditIsExact(pack, states, turns, n - 1, r);
      RunKeepsInv(pack, states, turns, n - 1);
      StepCredits(pack, states[n - 1], turns[n - 1], r);
      assert TaughtBefore(pack, states, turns, n, r) <==>
             TaughtBefore(pack, states, turns, n - 1, r) || TaughtAt(pack, states, turns, n - 1, r);
    }
  }

  lemma LastTurnDecides(pack: TaskPack, s: State, t: Turn)
    requires HomeValid(pack) && Inv(pack, s) && !s.completed
    requires NextState(pack, s, t).Ok? && NextState(pack, s, t).value.completed
    ensures var n := NextState(pack, s, t).value;
            var taught := NoteSet(pack) <= n.childNotes && SemanticsAt(pack, s, t).source != StructuredJoint;
            n.outcome == Some(if taught then Taught else Supported) && (n.reward <==> taught)
  {
    hide NextState, Interpret, Conclude, Sound, Absorb;
    OutcomeIsSound(pack, s, t);
    var sem := SemanticsAt(pack, s, t);
    ConcludeNotes(pack, s, sem);
    AbsorbKeepsJoint(pack, s, sem);
  }

  lemma AbsorbKeepsJoint(pack: TaskPack, s: State, sem: Semantics)
    ensures Absorb(pack, s, sem).jointUsed == s.jointUsed
  {}

  /** A finished conversation is TAUGHT, and rewarded, iff every note relation was first verified by free text in a turn
      begun at H0 or H1 and the finishing turn was not the joint action. */
  lemma TaughtIff(pack: TaskPack, level: ExpressionLevel, states: seq<State>, turns: seq<Turn>)
    requires HomeValid(pack) && RunFromStart(pack, level, states, turns)
    requires turns != [] && states[|turns|].completed
    ensures var end := states[|turns|];
            var taught :=
              && (forall r | r in NoteSet(pack) :: TaughtBefore(pack, states, turns, |turns|, r))
              && SemanticsAt(pack, states[|turns| - 1], turns[|turns| - 1]).source != StructuredJoint;
            && (end.outcome == Some(if taught then Taught else Supported))
            && (end.reward <==> taught)
  {
    hide NextState, Inv, HomeValid, TaughtBefore, SemanticsAt;
    var n := |turns|;
    InitialSatisfiesInv(pack, level);
    InitialHasNoCredit(pack, level);
    RunKeepsInv(pack, states, turns, n - 1);
    LastTurnDecides(pack, states[n - 1], turns[n - 1]);
    forall r ensures r in states[n].childNotes <==> r in NoteSet(pack) && TaughtBefore(pack, states, turns, n, r) {
      CreditIsExact(pack, states, turns, n, r);
    }
  }

  lemma InitialHasNoCredit(pack: TaskPack, level: ExpressionLevel)
    requires HomeValid(pack) && Initial(pack, level).Ok?
    ensures Initial(pack, level).value.childNotes == {}
  {
    hide Ask;
  }

  // ----- joint work and choices finish the task -----

  lemma {:induction false} JointValuesMatch(pack: TaskPack)
    requires pack.ValidCompletion() && pack.ValidJoint() && pack.ValidNotes()
    ensures pack.ValidFactValues(JointValues(pack.joint))
    ensures Unique(JointlyPerformed(pack)) && Elements(JointlyPerformed(pack)) <= pack.relations
    ensures pack.Required() <= (set u | u in JointValues(pack.joint) :: TargetKey(FactTarget, u.0))
                               + (set r | r in JointlyPerformed(pack) :: TargetKey(RelationTarget, r))
  {
    JointValuesUnique(pack.joint);
    var listed := JointRelations(pack.joint) + Within(pack.noteRelations, pack.h3Relations);
    forall r | r in JointlyPerformed(pack) ensures r in pack.relations {
      assert r in Elements(JointlyPerformed(pack)) && r in Elements(listed);
      if r in JointRelations(pack.joint) {
        assert JointRelation(r).Covers() in (set c | c in pack.joint :: c.Covers());
        RequiredKnown(pack, TargetKey(RelationTarget, r));
      }
    }
    forall k | k in pack.Required()
      ensures k in (set u | u in JointValues(pack.joint) :: TargetKey(FactTarget, u.0))
                   + (set r | r in JointlyPerformed(pack) :: TargetKey(RelationTarget, r))
    {
      var c :| c in pack.joint && c.Covers() == k;
      match c
      case JointFact(f, v) =>
        assert (f, v) in JointValues(pack.joint);
      case JointRelation(r) =>
        assert r in listed && r in Elements(listed) && r in Elements(JointlyPerformed(pack));
    }
  }

  lemma {:induction false} JointValuesUnique(joint: seq<JointCompletion>)
    requires forall i, j :: 0 <= i < j < |joint| ==> joint[i].Covers() != joint[j].Covers()
    ensures UniqueFactIds(JointValues(joint))
  {
    if joint != [] {
      JointValuesUnique(joint[1..]);
      var rest := JointValues(joint[1..]);
      forall j | 0 <= j < |rest| ensures TargetKey(FactTarget, rest[j].0) != joint[0].Covers() {
        assert rest[j] in rest;
        var i :| 0 <= i < |joint[1..]| && joint[1..][i] == JointFact(rest[j].0, rest[j].1);
        assert joint[i + 1].Covers() != joint[0].Covers();
      }
      if joint[0].JointRelation? {
        assert JointValues(joint) == rest;
      }
    }
  }

  lemma SoundCompletes(pack: TaskPack, l: Ledger, a: Applied)
    requires Sound(pack, l, a) && pack.Required() <= Verified(a.Ledger())
    ensures a.completion.Complete()
  {}

  lemma JointProgress(pack: TaskPack, l: Ledger, turn: string)
    requires pack.ValidCompletion() && pack.ValidJoint() && pack.ValidNotes() && Usable(pack, l) && GoodTurnId(turn)
    ensures var r := ApplyStructured(pack, l, JointValues(pack.joint), JointlyPerformed(pack), turn, JointSource);
            r.Ok? && r.value.completion.Complete()
  {
    hide WellFormed, BoundTo, ApplyStructured, Sound, JointlyPerformed, CompletionOf, JointValues;
    JointValuesMatch(pack);
    var values, relations := JointValues(pack.joint), JointlyPerformed(pack);
    ReviewedProgressApplies(pack, l, values, relations, turn, JointSource);
    ApplyStructuredIsSound(pack, l, values, relations, turn, JointSource);
    var a := ApplyStructured(pack, l, values, relations, turn, JointSource).value;
    forall k | k in pack.Required() ensures k in Verified(a.Ledger()) {
      match k.kind
      case FactTarget =>
        var u :| u in values && TargetKey(FactTarget, u.0) == k;
        assert k.id in a.Ledger().facts.Keys;
      case RelationTarget =>
        assert k.id in Elements(relations);
    }
    SoundCompletes(pack, l, a);
  }

  /** The joint action is interpreted iff it submits exactly the pinned values, and then completes the ledger. */
  lemma JointIsInterpreted(pack: TaskPack, ladder: Ladder, subgoal: string, l: Ledger, turn: string,
      values: map<string, Json>)
    requires forall p | p in pack.l3Plans :: |p.targets| == 1
    requires pack.ValidCompletion() && pack.ValidJoint() && pack.ValidNotes() && Usable(pack, l) && GoodTurnId(turn)
    requires ladder.expression == L0 && ladder.hint == H3
    ensures var r := Interpret(pack, ladder, subgoal, l, Turn.Turn(turn, Action(values)));
            && (r.Ok? <==> values == CompletionValues(pack.joint))
            && (r.Ok? ==> r.value.applied.completion.Complete() && r.value.source == StructuredJoint)
  {
    hide ApplyStructured, CompletionOf, CompletionValues, SameJson;
    SameJsonIsEquality(JObject(values), JObject(CompletionValues(pack.joint)));
    JointProgress(pack, l, turn);
  }

  /** At joint work exactly the emitted completion values are accepted, and submitting them finishes the task. */
  lemma JointActionCompletes(pack: TaskPack, s: State, turn: string, values: map<string, Json>)
    requires HomeValid(pack) && Inv(pack, s) && !s.completed && s.ladder.expression == L0 && GoodTurnId(turn)
    ensures Ask(pack, false, L0, s.ledger).Some?
    ensures var emitted := Ask(pack, false, L0, s.ledger).value.completionValues;
            var r := NextState(pack, s, Turn.Turn(turn, Action(values)));
            && (r.Ok? <==> values == emitted)
            && (r.Ok? ==> r.value.completed && r.value.outcome == Some(Supported))
  {
    hide Interpret, Policy, SpeechFailure, ChildNotes, SupportedNotes, CompletionValues, WellFormed, BoundTo;
    JointIsInterpreted(pack, s.ladder, s.subgoal, s.ledger, turn, values);
    JointQuestion(pack, s.ledger);
  }

  lemma JointQuestion(pack: TaskPack, l: Ledger)
    requires pack.ValidQuestions() && pack.ValidSlots()
    ensures Ask(pack, false, L0, l).Some?
    ensures Ask(pack, false, L0, l).value.completionValues == CompletionValues(pack.joint)
  {}

  // ----- which turns succeed -----

  lemma {:induction false} SelectIsDistinct(targets: seq<Target>, keys: set<Key>)
    requires DistinctKeys(targets)
    ensures DistinctKeys(Select(targets, keys)) && |Select(targets, keys)| <= |targets|
  {
    if targets != [] {
      SelectIsDistinct(targets[1..], keys);
      var rest := Select(targets[1..], keys);
      forall j | 0 <= j < |rest| ensures rest[j].key != targets[0].key {
        assert rest[j] in targets[1..];
      }
    }
  }

  lemma AskedTargetsAreDistinct(pack: TaskPack, expression: ExpressionLevel, l: Ledger)
    requires pack.ValidQuestions() && |pack.initial.targets| <= 4 && DistinctKeys(pack.initial.targets)
    requires Remaining(pack, l) != {} && Ask(pack, false, expression, l).Some?
    ensures var ts := Ask(pack, false, expression, l).value.targets;
            1 <= |ts| <= 4 && DistinctKeys(ts) && forall t | t in ts :: t.key in Remaining(pack, l)
  {
    SelectIsDistinct(pack.initial.targets, Remaining(pack, l));
    AskedTargetsRemain(pack, expression, l);
    hide CompletionValues, FirstPartial, FirstL2ByKey, FirstL3ByKey, FirstL3ByTarget, Remaining;
  }

  lemma QuestionExists(pack: TaskPack, expression: ExpressionLevel, l: Ledger)
    requires pack.ValidQuestions() && pack.ValidSlots() && Remaining(pack, l) != {}
    requires (AsksAgree(pack) || expression != L4)
    ensures Ask(pack, false, expression, l).Some?
  {
    hide Ask, Remaining;
    if expression == L4 { L4AsksWhenAgreed(pack, l); } else { LowerLevelsAlwaysAsk(pack, expression, l); }
  }

  /** The turns of a home conversation that Mormi cannot answer. */
  predicate CannotAnswer(pack: TaskPack, ladder: Ladder, sem: Semantics) {
    Speechless(pack, ladder, sem, Prewarmed(ladder, Policy(ladder, sem), sem))
  }

  /** What is asked about next is known to the pack and not verified yet. */
  lemma RemainingIsOpen(pack: TaskPack, l: Ledger, k: Key)
    requires pack.ValidCompletion() && k in Remaining(pack, l)
    ensures pack.Known(k) && k !in Verified(l)
  {
    RequiredKnown(pack, k);
    hide TaskPack.Known, TaskPack.Required;
  }

  /** Whether Mormi can speak, whatever open targets are asked about. */
  lemma SpeechIff(pack: TaskPack, ladder: Ladder, sem: Semantics, l: Ledger, asked: seq<Target>)
    requires HomeValid(pack) && LadderOk(ladder) && Proper(ladder, sem) && Sound(pack, l, sem.applied)
    requires DistinctKeys(asked) && 1 <= |asked| <= 4
    requires forall t | t in asked :: t.key in Remaining(pack, sem.applied.Ledger())
    ensures var after := Policy(ladder, sem);
            SpeechFailure(pack, after, sem, asked, ladder.hint, Prewarmed(ladder, after, sem)).Some? <==>
            CannotAnswer(pack, ladder, sem)
  {
    HelpIsOneTarget(pack);
    NewsIsUnique(pack, l, sem.applied);
    assert pack.ValidCompletion();
    hide HomeValid, LadderOk, Proper, Sound, SpeechFailure, Speechless, Prewarmed, Policy, Remaining,
         TaskPack.ValidCompletion, TaskPack.Known, Verified, HelpTargets;
    forall t | t in asked ensures pack.Known(t.key) && t.key !in Verified(sem.applied.Ledger()) {
      RemainingIsOpen(pack, sem.applied.Ledger(), t.key);
    }
    SpeechFailsIff(pack, ladder, sem, asked, Prewarmed(ladder, Policy(ladder, sem), sem));
  }

  /** Once interpreted, a turn of an open conversation succeeds unless Mormi cannot answer it. */
  lemma ConcludeSucceedsIff(pack: TaskPack, s: State, sem: Semantics)
    requires HomeValid(pack) && Inv(pack, s) && !s.completed && Sound(pack, s.ledger, sem.applied)
    requires Proper(s.ladder, sem)
    requires AsksAgree(pack) || Policy(s.ladder, sem).expression != L4
    ensures Conclude(pack, s, sem).Ok? <==> sem.applied.completion.Complete() || !CannotAnswer(pack, s.ladder, sem)
  {
    hide Policy, SpeechFailure, CannotAnswer, Prewarmed, Ask, WellFormed, BoundTo, Extends, ExactDelta, CompletionOf,
         Proper;
    hide ChildNotes, SupportedNotes, AsksAgree, QuestionBound;
    var ladder := Policy(s.ladder, sem);
    var l := sem.applied.Ledger();
    if !sem.applied.completion.Complete() {
      assert Remaining(pack, l) != {};
      QuestionExists(pack, ladder.expression, l);
      AskedTargetsAreDistinct(pack, ladder.expression, l);
      SpeechIff(pack, s.ladder, sem, s.ledger, Ask(pack, false, ladder.expression, l).value.targets);
    }
  }

  /** In a pack whose questions agree, a turn of any reachable open conversation that can be interpreted succeeds
      unless Mormi cannot answer it: the conversation is never stuck for want of a question. */
  lemma TurnSucceedsIff(pack: TaskPack, s: State, t: Turn)
    requires HomeValid(pack) && Inv(pack, s) && !s.completed && AsksAgree(pack)
    requires Interpret(pack, s.ladder, s.subgoal, s.ledger, t).Ok?
    requires Proper(s.ladder, Interpret(pack, s.ladder, s.subgoal, s.ledger, t).value)
    ensures var sem := Interpret(pack, s.ladder, s.subgoal, s.ledger, t).value;
            NextState(pack, s, t).Ok? <==> sem.applied.completion.Complete() || !CannotAnswer(pack, s.ladder, sem)
  {
    hide Interpret, Conclude, Sound, Proper, CannotAnswer, AsksAgree;
    InterpretIsSound(pack, s.ladder, s.subgoal, s.ledger, t);
    ConcludeSucceedsIff(pack, s, Interpret(pack, s.ladder, s.subgoal, s.ledger, t).value);
  }

  // ----- choices -----

  /** The child picks a correct, enabled option of the plan on screen. */
  ghost predicate CorrectPick(pack: TaskPack, l: Ledger, t: Turn)
    requires forall p | p in pack.l3Plans :: |p.targets| == 1
  {
    && GoodTurnId(t.id) && t.input.Pick? && |t.input.choiceIds| == 1
    && ShownPlan(pack, l).Some?
    && exists c :: c in ShownPlan(pack, l).value.choices && c.effect.correct && !c.disabled
         && c.choiceId == t.input.choiceIds[0]
  }

  lemma ShownPlanIsActive(pack: TaskPack, s: State)
    requires HomeValid(pack) && QuestionBound(pack, s) && s.ladder.expression == L2
    ensures ShownPlan(pack, s.ledger).Some?
    ensures ActiveL2Plan(pack, s.ladder, s.subgoal, s.ledger) == ShownPlan(pack, s.ledger)
  {
    hide ActiveTargets, Keys, CompletionValues, HelpsOnce, HomeChoices, TaskPack.ValidQuestions, TaskPack.ValidSlots,
         TaskPack.ValidChoices, TaskPack.ValidCompletion, TaskPack.ValidJoint, TaskPack.ValidNotes;
    ValidAsksOne(pack);
    var plan := ShownPlan(pack, s.ledger).value;
    var active := FirstL2ById(pack.l2Plans, s.subgoal).value;
    assert plan in pack.l2Plans && active in pack.l2Plans && plan.planId == active.planId;
  }

  lemma PickedChoice(choices: seq<Choice>, c: Choice)
    requires c in choices
    requires forall i, j :: 0 <= i < j < |choices| ==> choices[i].choiceId != choices[j].choiceId
    ensures FindChoice(choices, c.choiceId) == Some(c)
  {}

  lemma CorrectEffectProgresses(pack: TaskPack, l: Ledger, k: Key, e: Effect, turn: string)
    requires Usable(pack, l) && pack.ValidEffect(k, e) && k !in Verified(l) && GoodTurnId(turn)
    ensures var r := ApplyStructured(pack, l, e.facts, e.relations, turn, ChoiceSource);
            && r.Ok? && k in Verified(r.value.Ledger()) && r.value.NewCanonical() && Sound(pack, l, r.value)
            && r.value.Ledger().facts.Keys == l.facts.Keys + (set u | u in e.facts :: u.0)
            && r.value.Ledger().relations.Keys == l.relations.Keys + Elements(e.relations)
            && r.value.progress.newPartials == []
  {
    hide ApplyStructured, CompletionOf, WellFormed, BoundTo;
    forall x | x in Elements(e.relations) ensures x in pack.relations {}
    ReviewedProgressApplies(pack, l, e.facts, e.relations, turn, ChoiceSource);
    ApplyStructuredIsSound(pack, l, e.facts, e.relations, turn, ChoiceSource);
    var a := ApplyStructured(pack, l, e.facts, e.relations, turn, ChoiceSource).value;
    match k.kind {
      case FactTarget =>
        var u :| u in e.facts && u.0 == k.id;
        assert k.id in a.Ledger().facts.Keys - l.facts.Keys;
        assert k.id in Elements(a.progress.newFacts);
      case RelationTarget =>
        assert k.id in Elements(e.relations);
        assert k.id in a.Ledger().relations.Keys - l.relations.Keys;
        assert k.id in Elements(a.progress.newRelations);
    }
  }

  /** How an enabled correct choice of the active plan is interpreted. */
  lemma PickIsInterpreted(pack: TaskPack, ladder: Ladder, subgoal: string, l: Ledger, t: Turn, plan: L2Plan, c: Choice)
    requires forall p | p in pack.l3Plans :: |p.targets| == 1
    requires ladder.expression == L2 && ActiveL2Plan(pack, ladder, subgoal, l) == Some(plan)
    requires t.input.Pick? && |t.input.choiceIds| == 1 && FindChoice(plan.choices, t.input.choiceIds[0]) == Some(c)
    requires !c.disabled && c.effect.correct
    requires ApplyStructured(pack, l, c.effect.facts, c.effect.relations, t.id, ChoiceSource).Ok?
    ensures Interpret(pack, ladder, subgoal, l, t)
         == Ok(PickSemantics(ApplyStructured(pack, l, c.effect.facts, c.effect.relations, t.id, ChoiceSource).value))
  {
    hide ApplyStructured, ActiveL2Plan, FindChoice, PlainResponse;
  }

  /** How a correct choice about `k` is interpreted. */
  ghost predicate Picked(pack: TaskPack, l: Ledger, k: Key, sem: Semantics) {
    && sem == PickSemantics(sem.applied)
    && Sound(pack, l, sem.applied) && sem.applied.NewCanonical() && sem.applied.progress.newPartials == []
    && k in Remaining(pack, l) && k in Verified(sem.applied.Ledger())
    && (match k.kind
        case FactTarget => sem.applied.Ledger().relations.Keys == l.relations.Keys
        case RelationTarget =>
          && sem.applied.Ledger().facts.Keys == l.facts.Keys
          && sem.applied.Ledger().relations.Keys == l.relations.Keys + Elements([k.id] + pack.noteRelations))
  }

  lemma ChoiceKeys(pack: TaskPack, k: Key, e: Effect)
    requires HomeChoice(pack, k, e)
    ensures k.kind == FactTarget ==> Elements(e.relations) == {}
    ensures k.kind == RelationTarget ==>
              (set u | u in e.facts :: u.0) == {} && Elements(e.relations) == Elements([k.id] + pack.noteRelations)
  {}

  lemma HomeChoiceOf(pack: TaskPack, plan: L2Plan, c: Choice)
    requires HomeValid(pack) && plan in pack.l2Plans && c in plan.choices && c.effect.correct
    ensures pack.ValidEffect(plan.target.key, c.effect) && HomeChoice(pack, plan.target.key, c.effect)
    ensures FindChoice(plan.choices, c.choiceId) == Some(c)
  {
    hide TaskPack.ValidEffect, HomeChoice, TaskPack.ValidQuestions, TaskPack.ValidSlots, TaskPack.ValidJoint,
         TaskPack.ValidNotes, TaskPack.ValidCompletion, HelpsOnce;
    assert c in plan.choices && plan in pack.l2Plans;
    PickedChoice(plan.choices, c);
  }

  lemma RemainingIsUnverified(pack: TaskPack, l: Ledger, k: Key)
    requires k in Remaining(pack, l)
    ensures k !in Verified(l)
  {
    hide TaskPack.Required, Verified;
  }

  /** What the interpreted choice says. */
  function PickSemantics(a: Applied): Semantics {
    Semantics(PlainResponse(LearningResponse, NoSupport, true), a, MainRoute, StructuredChoice, Some(true), false)
  }

  lemma PickedIs(pack: TaskPack, l: Ledger, k: Key, a: Applied)
    requires Sound(pack, l, a) && a.NewCanonical() && a.progress.newPartials == []
    requires k in Remaining(pack, l) && k in Verified(a.Ledger())
    requires k.kind == FactTarget ==> a.Ledger().relations.Keys == l.relations.Keys
    requires k.kind == RelationTarget ==>
               && a.Ledger().facts.Keys == l.facts.Keys
               && a.Ledger().relations.Keys == l.relations.Keys + Elements([k.id] + pack.noteRelations)
    ensures Picked(pack, l, k, PickSemantics(a))
  {
    hide Sound, Remaining, Verified, PlainResponse;
  }

  lemma PickedBy(pack: TaskPack, l: Ledger, k: Key, c: Choice, turn: string)
    requires Usable(pack, l) && GoodTurnId(turn) && k in Remaining(pack, l)
    requires pack.ValidEffect(k, c.effect) && HomeChoice(pack, k, c.effect)
    ensures var r := ApplyStructured(pack, l, c.effect.facts, c.effect.relations, turn, ChoiceSource);
            r.Ok? && Picked(pack, l, k, PickSemantics(r.value))
  {
    hide ApplyStructured, Sound, HomeChoice, Picked, PickSemantics, TaskPack.ValidEffect, WellFormed, BoundTo,
         Remaining, Verified;
    RemainingIsUnverified(pack, l, k);
    ChoiceKeys(pack, k, c.effect);
    CorrectEffectProgresses(pack, l, k, c.effect, turn);
    match k.kind {
      case FactTarget => assert l.relations.Keys + Elements(c.effect.relations) == l.relations.Keys;
      case RelationTarget => assert l.facts.Keys + (set u | u in c.effect.facts :: u.0) == l.facts.Keys;
    }
    PickedIs(pack, l, k, ApplyStructured(pack, l, c.effect.facts, c.effect.relations, turn, ChoiceSource).value);
  }

  lemma CorrectPickIsInterpreted(pack: TaskPack, s: State, t: Turn)
    requires HomeValid(pack) && Inv(pack, s) && !s.completed && s.ladder.expression == L2
    requires CorrectPick(pack, s.ledger, t)
    ensures ShownPlan(pack, s.ledger).Some?
    ensures var r := Interpret(pack, s.ladder, s.subgoal, s.ledger, t);
            r.Ok? && Picked(pack, s.ledger, ShownPlan(pack, s.ledger).value.target.key, r.value)
  {
    hide ApplyStructured, Ask, ActiveTargets, ActiveL2Plan, FindChoice, FirstL2ByKey, Interpret, Picked, PlainResponse,
         TaskPack.ValidEffect, HomeChoice, WellFormed, BoundTo, Complete, LadderOk, NotesOk, HelpsOnce, HomeChoices;
    ValidAsksOne(pack);
    assert Usable(pack, s.ledger) && QuestionBound(pack, s) && pack.ValidQuestions();
    hide HomeValid, Usable, QuestionBound, TaskPack.ValidQuestions;
    ShownPlanIsActive(pack, s);
    ActiveTargetsRemain(pack, L2, s.ledger);
    var plan := ShownPlan(pack, s.ledger).value;
    var c :| c in plan.choices && c.effect.correct && !c.disabled && c.choiceId == t.input.choiceIds[0];
    HomeChoiceOf(pack, plan, c);
    PickedBy(pack, s.ledger, plan.target.key, c, t.id);
    PickIsInterpreted(pack, s.ladder, s.subgoal, s.ledger, t, plan, c);
  }

  /** The targets a correct choice about `k` verifies. */
  function Learnt(pack: TaskPack, k: Key): set<Key> {
    match k.kind
    case FactTarget => {k}
    case RelationTarget => set r | r in [k.id] + pack.noteRelations :: TargetKey(RelationTarget, r)
  }

  /** A correct choice about `k` can be answered: it is a bare answer, or finishes the task, or the method it shows
      brings no more new relations than the speaker is told of, while every verified fact has a plain label. */
  predicate PickIsAnswered(pack: TaskPack, l: Ledger, k: Key) {
    || k.kind == FactTarget || Remaining(pack, l) <= Learnt(pack, k)
    || (|Elements([k.id] + pack.noteRelations) - l.relations.Keys| <= MAX_SIGNAL_IDS && PlainLabels(pack, l))
  }

  lemma NothingIn(ids: seq<string>)
    requires Elements(ids) == {}
    ensures ids == []
  {
    EmptyIff(ids);
    assert forall x | x in ids :: x in Elements(ids);
  }

  /** What is new with a correct choice, by the kind of its target. */
  lemma PickNews(pack: TaskPack, l: Ledger, k: Key, sem: Semantics)
    requires Picked(pack, l, k, sem)
    ensures var p := sem.applied.progress;
            && Unique(p.newRelations) && p.newPartials == [] && (p.newFacts != [] || p.newRelations != [])
            && match k.kind
               case FactTarget => Elements(p.newRelations) == {}
               case RelationTarget =>
                 && Elements(p.newFacts) == {}
                 && Elements(p.newRelations) == Elements([k.id] + pack.noteRelations) - l.relations.Keys
  {
    hide WellFormed, BoundTo, CompletionOf, Extends, PlainResponse, Verified, TaskPack.Required;
  }

  /** What a correct choice reports. */
  lemma PickReports(pack: TaskPack, l: Ledger, k: Key, sem: Semantics)
    requires Picked(pack, l, k, sem)
    ensures k.kind == FactTarget ==> AnswerOnly(sem)
    ensures k.kind == RelationTarget ==> !AnswerOnly(sem) && sem.applied.progress.newFacts == []
    ensures k.kind == RelationTarget ==>
              |sem.applied.progress.newRelations| == |Elements([k.id] + pack.noteRelations) - l.relations.Keys|
  {
    hide Picked;
    PickNews(pack, l, k, sem);
    var p := sem.applied.progress;
    match k.kind {
      case FactTarget => NothingIn(p.newRelations);
      case RelationTarget =>
        NothingIn(p.newFacts);
        UniqueCardinality(p.newRelations);
    }
  }

  lemma PickCompletes(pack: TaskPack, l: Ledger, k: Key, sem: Semantics)
    requires Picked(pack, l, k, sem)
    ensures k.kind == RelationTarget ==>
              (sem.applied.completion.Complete() <==> Remaining(pack, l) <= Learnt(pack, k))
  {
    hide WellFormed, BoundTo, CompletionOf, Extends, ExactDelta, PlainResponse, TaskPack.Required;
    if k.kind == RelationTarget {
      forall x: Key ensures x in Verified(sem.applied.Ledger()) <==> x in Verified(l) || x in Learnt(pack, k) {
        match x.kind
        case FactTarget => assert x == TargetKey(FactTarget, x.id);
        case RelationTarget =>
          assert x == TargetKey(RelationTarget, x.id);
          assert x.id in Elements([k.id] + pack.noteRelations) <==> x.id in [k.id] + pack.noteRelations;
      }
    }
  }

  lemma PickIsPlain(pack: TaskPack, ladder: Ladder, l: Ledger, k: Key, sem: Semantics)
    requires Picked(pack, l, k, sem)
    ensures Proper(ladder, sem) && Policy(ladder, sem).conceptFailures == 0
    ensures Policy(ladder, sem).expression == ladder.expression
    ensures CannotAnswer(pack, ladder, sem) <==>
            !AnswerOnly(sem) && !FitsSpeaker(pack, Policy(ladder, sem), sem)
  {
    hide Sound, FitsSpeaker, AnswerOnly, Verified, Prewarmed, TaskPack.Required;
  }

  lemma PickLabels(pack: TaskPack, ladder: Ladder, l: Ledger, k: Key, sem: Semantics)
    requires Picked(pack, l, k, sem)
    ensures Guarding(sem) == []
    ensures k.kind == RelationTarget ==> (LabelsFit(pack, sem) <==> PlainLabels(pack, l))
  {
    hide Sound, PlainResponse, Verified, TaskPack.Required;
    assert k.kind == RelationTarget ==> forall f :: f in sem.applied.Ledger().facts.Keys <==> f in l.facts.Keys;
  }

  /** Whether a correct choice that leaves the task open is answered. */
  lemma PickIsAnsweredIff(pack: TaskPack, ladder: Ladder, l: Ledger, k: Key, sem: Semantics)
    requires Picked(pack, l, k, sem)
    ensures sem.applied.completion.Complete() || !CannotAnswer(pack, ladder, sem) <==> PickIsAnswered(pack, l, k)
  {
    hide FitsSpeaker, AnswerOnly, CannotAnswer, Policy, Learnt, Remaining, Picked, LabelsFit, PlainLabels;
    PickReports(pack, l, k, sem);
    PickCompletes(pack, l, k, sem);
    PickIsPlain(pack, ladder, l, k, sem);
    PickLabels(pack, ladder, l, k, sem);
    NoClaimsFit(pack, Policy(ladder, sem), sem);
  }

  /** A correct choice succeeds exactly when it can be answered, and then verifies its target and finishes the task or
      stays at L2. */
  lemma CorrectPickAdvances(pack: TaskPack, s: State, t: Turn)
    requires HomeValid(pack) && Inv(pack, s) && !s.completed && s.ladder.expression == L2
    requires CorrectPick(pack, s.ledger, t)
    ensures ShownPlan(pack, s.ledger).Some?
    ensures var r := NextState(pack, s, t);
            && (r.Ok? <==> PickIsAnswered(pack, s.ledger, ShownPlan(pack, s.ledger).value.target.key))
            && (r.Ok? ==>
                  && Inv(pack, r.value)
                  && (r.value.completed || r.value.ladder.expression == L2)
                  && Remaining(pack, r.value.ledger) < Remaining(pack, s.ledger))
  {
    hide Interpret, Conclude, Sound, Inv, Picked, ShownPlan, CorrectPick, Ask, PickIsAnswered, CannotAnswer;
    CorrectPickIsInterpreted(pack, s, t);
    var sem := Interpret(pack, s.ladder, s.subgoal, s.ledger, t).value;
    var k := ShownPlan(pack, s.ledger).value.target.key;
    PickConcludes(pack, s, k, sem);
    if NextState(pack, s, t).Ok? {
      TurnKeepsInv(pack, s, t);
      ConcludeFrame(pack, s, sem);
      PickShrinks(pack, s.ledger, k, sem);
    }
  }

  lemma PickShrinks(pack: TaskPack, l: Ledger, k: Key, sem: Semantics)
    requires Picked(pack, l, k, sem)
    ensures Remaining(pack, sem.applied.Ledger()) < Remaining(pack, l)
  {
    SoundExtends(pack, l, sem.applied);
    ExtendsVerified(sem.applied.Ledger(), l);
    assert k in Remaining(pack, l) && k !in Remaining(pack, sem.applied.Ledger());
    hide Sound;
  }

  lemma SoundExtends(pack: TaskPack, l: Ledger, a: Applied)
    requires Sound(pack, l, a)
    ensures Extends(a.Ledger(), l)
  {}

  lemma PickConcludes(pack: TaskPack, s: State, k: Key, sem: Semantics)
    requires HomeValid(pack) && Inv(pack, s) && !s.completed && s.ladder.expression == L2
    requires Picked(pack, s.ledger, k, sem)
    ensures Conclude(pack, s, sem).Ok? <==> PickIsAnswered(pack, s.ledger, k)
    ensures LadderOk(s.ladder) && forall p | p in pack.l3Plans :: |p.targets| == 1
    ensures Policy(s.ladder, sem).expression == L2
  {
    PickIsAnsweredIff(pack, s.ladder, s.ledger, k, sem);
    PickIsPlain(pack, s.ladder, s.ledger, k, sem);
    hide Conclude, Sound, PickIsAnswered, CannotAnswer, Policy, Proper;
    ConcludeSucceedsIff(pack, s, sem);
  }

  /** The child picks an enabled option of the plan on screen that is not correct. */
  ghost predicate WrongPick(pack: TaskPack, l: Ledger, t: Turn)
    requires forall p | p in pack.l3Plans :: |p.targets| == 1
  {
    && t.input.Pick? && |t.input.choiceIds| == 1 && ShownPlan(pack, l).Some?
    && var found := FindChoice(ShownPlan(pack, l).value.choices, t.input.choiceIds[0]);
       found.Some? && !found.value.disabled && !found.value.effect.correct
  }

  lemma WrongPickIsInterpreted(pack: TaskPack, s: State, t: Turn)
    requires HomeValid(pack) && QuestionBound(pack, s) && s.ladder.expression == L2 && WrongPick(pack, s.ledger, t)
    ensures Interpret(pack, s.ladder, s.subgoal, s.ledger, t)
         == Ok(Mistake(pack, s.ledger))
  {
    hide HomeValid, QuestionBound, ApplyStructured, ActiveL2Plan, ShownPlan, FindChoice, CompletionOf, PlainResponse;
    ValidAsksOne(pack);
    ShownPlanIsActive(pack, s);
  }

  lemma UnchangedIsOpen(pack: TaskPack, s: State)
    requires HomeValid(pack) && Inv(pack, s) && !s.completed
    ensures Sound(pack, s.ledger, Unchanged(pack, s.ledger)) && !Unchanged(pack, s.ledger).completion.Complete()
  {
    hide HomeValid, WellFormed, BoundTo, Sound, CompletionOf, QuestionBound;
    UnchangedIsSound(pack, s.ledger);
  }

  lemma MistakeRaisesHint(l: Ladder, sem: Semantics)
    requires LadderOk(l) && l.expression == L2 && sem.source == StructuredChoice && sem.structuredCorrect == Some(false)
    requires sem.response == PlainResponse(LearningResponse, NoSupport, false) && sem.route == MainRoute
    requires !sem.Progressed()
    ensures var m := Policy(l, sem);
            m.conceptFailures == l.conceptFailures + 1 && HintRank(m.hint) == HintRank(l.hint) + 1
  {}

  /** What a reviewed mistake is interpreted as. */
  function Mistake(pack: TaskPack, l: Ledger): Semantics {
    Semantics(PlainResponse(LearningResponse, NoSupport, false), Unchanged(pack, l), MainRoute, StructuredChoice,
      Some(false), false)
  }

  lemma MistakeIsPlain(pack: TaskPack, l: Ledger, ladder: Ladder)
    requires LadderOk(ladder) && ladder.expression == L2
    ensures var sem := Mistake(pack, l);
            && Proper(ladder, sem) && !sem.Progressed() && sem.applied.Ledger() == l
            && (CannotAnswer(pack, ladder, sem) <==> !PlainLabels(pack, l))
  {
    hide CompletionOf;
    var sem := Mistake(pack, l);
    NoClaimsFit(pack, Policy(ladder, sem), sem);
    hide FitsSpeaker, Prewarmed, RaiseHint;
  }

  lemma MistakeConcludes(pack: TaskPack, s: State)
    requires HomeValid(pack) && Inv(pack, s) && !s.completed && s.ladder.expression == L2
    requires forall p | p in pack.l3Plans :: |p.targets| == 1
    ensures var r := Conclude(pack, s, Mistake(pack, s.ledger));
            && (r.Ok? <==> PlainLabels(pack, s.ledger))
            && (r.Ok? ==>
                  && !r.value.completed && r.value.ledger == s.ledger
                  && r.value.ladder == Policy(s.ladder, Mistake(pack, s.ledger)))
  {
    hide HomeValid, Inv, Conclude, Sound, Policy, LadderOk, Mistake, Proper, CannotAnswer, PlainLabels;
    var sem := Mistake(pack, s.ledger);
    InvLadder(pack, s);
    MistakeIsPlain(pack, s.ledger, s.ladder);
    MistakeLeavesL4(s.ladder, sem);
    MistakeIsOpen(pack, s);
    ConcludeSucceedsIff(pack, s, sem);
    if Conclude(pack, s, sem).Ok? {
      ConcludeFrame(pack, s, sem);
      OpenStaysOpen(pack, s, sem);
    }
  }

  lemma MistakeIsOpen(pack: TaskPack, s: State)
    requires HomeValid(pack) && Inv(pack, s) && !s.completed
    ensures Sound(pack, s.ledger, Mistake(pack, s.ledger).applied)
    ensures !Mistake(pack, s.ledger).applied.completion.Complete()
  {
    hide HomeValid, Inv, Sound, Unchanged;
    UnchangedIsOpen(pack, s);
  }

  /** An incorrect choice succeeds exactly while the verified facts' labels are plain; it teaches nothing, and
      strengthens the help by exactly one hint. */
  lemma WrongPickTeachesNothing(pack: TaskPack, s: State, t: Turn)
    requires HomeValid(pack) && Inv(pack, s) && !s.completed && s.ladder.expression == L2
    requires WrongPick(pack, s.ledger, t)
    ensures var r := NextState(pack, s, t);
            && (r.Ok? <==> PlainLabels(pack, s.ledger))
            && (r.Ok? ==>
                  && !r.value.completed && r.value.ledger == s.ledger
                  && r.value.ladder.conceptFailures == s.ladder.conceptFailures + 1
                  && HintRank(r.value.ladder.hint) == HintRank(s.ladder.hint) + 1)
  {
    hide HomeValid, Interpret, Conclude, WrongPick, Policy, LadderOk, Usable, NotesOk, QuestionBound, Unchanged,
         PlainLabels, CannotAnswer;
    ValidAsksOne(pack);
    WrongPickIsInterpreted(pack, s, t);
    MistakeConcludes(pack, s);
    InvLadder(pack, s);
    MistakeIsPlain(pack, s.ledger, s.ladder);
    MistakeRaisesHint(s.ladder, Mistake(pack, s.ledger));
  }

  lemma InvLadder(pack: TaskPack, s: State)
    requires HomeValid(pack) && Inv(pack, s)
    ensures LadderOk(s.ladder)
  {
    hide HomeValid, LadderOk;
  }

  lemma MistakeLeavesL4(l: Ladder, sem: Semantics)
    requires LadderOk(l) && l.expression == L2
    ensures Policy(l, sem).expression != L4
  {
    PolicyIsMonotone(l, sem);
    hide Policy, LadderOk;
  }

  lemma OpenStaysOpen(pack: TaskPack, s: State, sem: Semantics)
    requires (forall p | p in pack.l3Plans :: |p.targets| == 1) && !s.completed && !sem.applied.completion.Complete()
    requires Conclude(pack, s, sem).Ok?
    ensures !Conclude(pack, s, sem).value.completed
  {
    hide Policy, SpeechFailure, Ask, CompletionOf, ChildNotes, SupportedNotes;
  }

  lemma {:induction false} CorrectChoicesAdvance(pack: TaskPack, states: seq<State>, turns: seq<Turn>, n: nat)
    requires HomeValid(pack) && Run(pack, states, turns) && n <= |turns|
    requires Inv(pack, states[0]) && (states[0].completed || states[0].ladder.expression == L2)
    requires forall i {:trigger turns[i]} :: 0 <= i < |turns| ==> CorrectPick(pack, states[i].ledger, turns[i])
    ensures Inv(pack, states[n]) && (states[n].completed || states[n].ladder.expression == L2)
    ensures |Remaining(pack, states[n].ledger)| + n <= |Remaining(pack, states[0].ledger)|
  {
    hide NextState, CorrectPick, Inv, Remaining;
    if n > 0 {
      CorrectChoicesAdvance(pack, states, turns, n - 1);
      assert NextState(pack, states[n - 1], turns[n - 1]) == Ok(states[n]);
      CorrectPickAdvances(pack, states[n - 1], turns[n - 1]);
      SubsetCardinality(Remaining(pack, states[n].ledger), Remaining(pack, states[n - 1].ledger));
    }
  }

  /** At L2 with `k` targets left, `k` correct choices finish the task. */
  lemma CorrectChoicesComplete(pack: TaskPack, states: seq<State>, turns: seq<Turn>)
    requires HomeValid(pack) && Run(pack, states, turns)
    requires Inv(pack, states[0]) && states[0].ladder.expression == L2
    requires forall i {:trigger turns[i]} :: 0 <= i < |turns| ==> CorrectPick(pack, states[i].ledger, turns[i])
    requires |turns| >= |Remaining(pack, states[0].ledger)|
    ensures states[|turns|].completed
  {
    hide Inv, NextState, Remaining, CorrectPick;
    CorrectChoicesAdvance(pack, states, turns, |turns|);
    OpenMeansRemaining(pack, states[|turns|]);
  }

  lemma OpenMeansRemaining(pack: TaskPack, s: State)
    requires HomeValid(pack) && Inv(pack, s)
    ensures s.completed <==> Remaining(pack, s.ledger) == {}
  {
    hide CompletionOf, Ask, WellFormed, BoundTo, HomeValid, QuestionBound;
    CompleteIffRequiredVerified(pack, s.ledger);
    EmptyDifference(pack.Required(), Verified(s.ledger));
  }
}
