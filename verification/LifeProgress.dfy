/** Life conversations get on: in a sealed scenario every interpreted turn but one kind succeeds, joint work finishes a
    task, and no task keeps a child from joint work for more than a bounded number of turns. */
module LifeProgress {
  import opened Common
  import opened Content
  import opened Ledgers
  import opened LedgerOperations
  import opened Ladders
  import opened Questions
  import opened Turns
  import opened WritableValues
  import opened LifeContent
  import opened LifeEngine
  import opened LifeTurns
  import opened LifeRuns
  import opened LifeWrites
  import opened LifeCredit
  import opened Json
  import HomeRuns

  /** A finished task: one that can be met, complete, and holding only values that can be written. */
  ghost predicate StageDone(sc: Scenario, s: LifeState, i: nat)
    requires Placed(sc, s) && i < |sc.stages|
  {
    TaskWritten(sc, s, i) && FinishedLedger(PackOf(sc, s, sc.stages[i]), LedgerOf(sc, s, sc.stages[i]))
  }

  lemma FitIsFinished(pack: TaskPack, l: Ledger, n: NoteState)
    requires Past(pack, l, n)
    ensures FinishedLedger(pack, l)
  {}

  // ----- lookups at the end of a task -----

  lemma ProjectionHasStage(sc: Scenario, p: Projection) returns (i: nat)
    requires sc.Valid() && p in sc.projections
    ensures i < |sc.stages| && sc.stages[i].taskId == p.task && FindStage(sc.stages, p.task) == Some(sc.stages[i])
  {
    hide LifeValid, Scenario.ValidSelector;
    assert sc.ValidProjection(p);
    UniqueStages(sc);
    var st := FindStage(sc.stages, p.task).value;
    i :| 0 <= i < |sc.stages| && sc.stages[i] == st;
  }

  lemma ProjectionExists(sc: Scenario, s: LifeState, p: Projection)
    requires sc.Valid() && ProjectionsSealed(sc) && Placed(sc, s) && p in sc.projections
    requires forall i: nat | i < |sc.stages| :: StageDone(sc, s, i)
    ensures ProjectIn(sc, s, p).Some?
  {
    hide Scenario.Valid, Runnable, InUse, LifeValid, FinishedLedger, Covered, Project, Written, Enterable;
    var i := ProjectionHasStage(sc, p);
    assert StageDone(sc, s, i);
    CoveredProjects(PackOf(sc, s, sc.stages[i]), LedgerOf(sc, s, sc.stages[i]), p);
  }

  lemma ValidHasCompletion(pack: TaskPack)
    requires LifeValid(pack)
    ensures pack.ValidCompletion() && pack.ValidQuestions() && pack.ValidSlots() && pack.ValidJoint()
    ensures pack.ValidNotes()
    ensures |pack.initial.targets| <= 4 && pack.entryLevel in {L4, L2}
  {}

  lemma {:induction false} FactsExist(sc: Scenario, s: LifeState, ps: seq<Projection>)
    requires sc.Valid() && ProjectionsSealed(sc) && Placed(sc, s) && forall p | p in ps :: p in sc.projections
    requires forall i: nat | i < |sc.stages| :: StageDone(sc, s, i)
    ensures FactsOf(sc, s, ps).Some?
  {
    hide Scenario.Valid, ProjectionsSealed, Placed, StageDone, ProjectIn;
    if ps != [] {
      FactsExist(sc, s, ps[..|ps| - 1]);
      ProjectionExists(sc, s, ps[|ps| - 1]);
    }
  }

  lemma SelectionExists(show: Num -> string, sel: Selector, pack: TaskPack, l: Ledger)
    requires FinishedLedger(pack, l) && Written(pack, l) && SelectorSealed(show, sel, pack)
    ensures LifeContent.Select(show, sel, l).Some?
  {
    hide Writable, LookupKey;
    CompleteIffRequiredVerified(pack, l);
    assert TargetKey(FactTarget, sel.factId) in pack.Required();
  }

  lemma VariantExists(sc: Scenario, s: LifeState)
    requires sc.Valid() && SelectorsSealed(sc) && Placed(sc, s) && s.index + 1 < |sc.stages|
    requires forall i: nat | i <= s.index :: StageDone(sc, s, i)
    ensures NextVariant(sc, s).Some?
  {
    hide Scenario.Valid, Runnable, InUse, LifeContent.Select, SelectorSealed, FinishedLedger, Written, Enterable,
         PackOf, LedgerOf, NextVariant;
    var k := s.index + 1;
    if sc.stages[k].selector.Some? {
      var j := SelectorHasSource(sc, k);
      assert StageDone(sc, s, j);
      VariantRead(sc, s, j);
      SelectionExists(sc.show, sc.stages[k].selector.value, PackOf(sc, s, sc.stages[j]), LedgerOf(sc, s, sc.stages[j]));
    } else {
      DefaultVariantIs(sc, s);
    }
  }

  // ----- the next question -----

  lemma PackIsAskable(sc: Scenario, st: Stage, v: string)
    requires sc.Valid() && Asking(sc) && st in sc.stages && v in st.variants
    ensures LifeValid(st.variants[v]) && Askable(st.variants[v])
  {}

  lemma CurrentIsAskable(sc: Scenario, s: LifeState)
    requires sc.Valid() && Asking(sc) && Placed(sc, s)
    ensures LifeValid(Current(sc, s)) && Askable(Current(sc, s))
  {
    hide Scenario.Valid, Asking, Runnable, LifeValid, Askable;
    var st := sc.stages[s.index];
    assert InUse(s.active, st);
    PackIsAskable(sc, st, s.active[st.taskId]);
  }

  /** While something is missing, an askable task has a question, with distinct targets. */
  lemma AskableAsks(pack: TaskPack, expression: ExpressionLevel, l: Ledger)
    requires LifeValid(pack) && Askable(pack) && !Complete(pack, l)
    ensures Ask(pack, false, expression, l).Some?
    ensures var ts := Ask(pack, false, expression, l).value.targets;
            1 <= |ts| <= 4 && DistinctKeys(ts) && forall t | t in ts :: t.key in Remaining(pack, l)
  {
    ValidHasCompletion(pack);
    hide LifeValid, AsksAgree, TaskPack.ValidQuestions, TaskPack.ValidSlots, Ask, Remaining, DistinctKeys;
    IncompleteRemains(pack, l);
    HomeRuns.QuestionExists(pack, expression, l);
    HomeRuns.AskedTargetsAreDistinct(pack, expression, l);
  }

  lemma IncompleteRemains(pack: TaskPack, l: Ledger)
    ensures Complete(pack, l) <==> Remaining(pack, l) == {}
  {
    hide CompletionOf;
    CompleteIffRequiredVerified(pack, l);
    EmptyDifference(pack.Required(), Verified(l));
  }

  // ----- which turns succeed -----

  lemma AskingSucceeds(sc: Scenario, s: LifeState)
    requires Placed(sc, s)
    ensures AskNext(sc, s).Ok? <==> Ask(Current(sc, s), false, s.ladder.expression, CurrentLedger(sc, s)).Some?
  {}

  /** The turns of a life conversation that Mormi cannot answer. */
  predicate CannotAnswer(pack: TaskPack, ladder: Ladder, sem: Semantics) {
    Speechless(pack, ladder, sem, HasCopy(Policy(ladder, sem), sem))
  }

  lemma OpenConcludes(sc: Scenario, s: LifeState, sem: Semantics)
    requires Placed(sc, s) && !Done(sem)
    requires Ask(Current(sc, s), false, Policy(s.ladder, sem).expression, sem.applied.Ledger()).Some?
    ensures var after := Policy(s.ladder, sem);
            var ts := Ask(Current(sc, s), false, after.expression, sem.applied.Ledger()).value.targets;
            Conclude(sc, s, sem).Ok? <==>
            SpeechFailure(Current(sc, s), after, sem, ts, s.ladder.hint, HasCopy(after, sem)).None?
  {
    hide Placed, Ask, Current, CurrentLedger, CurrentNotes, Absorb, Policy, SpeechFailure, HasCopy, AskNext, Tracked,
         CompleteTask, Deliver;
    AbsorbLeaves(sc, s, sem);
    AskingSucceeds(sc, Absorb(sc, s, sem));
  }

  /** Whether Mormi can speak, whatever open targets are asked about. */
  lemma SpeechIff(pack: TaskPack, ladder: Ladder, sem: Semantics, l: Ledger, asked: seq<Target>)
    requires pack.ValidCompletion() && LadderOk(ladder) && Proper(ladder, sem) && Sound(pack, l, sem.applied)
    requires DistinctKeys(asked) && 1 <= |asked| <= 4
    requires forall t | t in asked :: t.key in Remaining(pack, sem.applied.Ledger())
    ensures var after := Policy(ladder, sem);
            SpeechFailure(pack, after, sem, asked, ladder.hint, HasCopy(after, sem)).Some? <==>
            CannotAnswer(pack, ladder, sem)
  {
    NewsIsUnique(pack, l, sem.applied);
    hide LadderOk, Proper, Sound, SpeechFailure, Speechless, Policy, Remaining, TaskPack.ValidCompletion,
         TaskPack.Known, Verified, HelpTargets;
    forall t | t in asked ensures pack.Known(t.key) && t.key !in Verified(sem.applied.Ledger()) {
      HomeRuns.RemainingIsOpen(pack, sem.applied.Ledger(), t.key);
    }
    SpeechFailsIff(pack, ladder, sem, asked, HasCopy(Policy(ladder, sem), sem));
  }

  /** A turn that leaves its task open succeeds unless Mormi cannot answer it. */
  lemma OpenTurnSucceeds(sc: Scenario, s: LifeState, sem: Semantics)
    requires sc.Valid() && Asking(sc) && Placed(sc, s) && LadderOk(s.ladder) && !Done(sem)
    requires Sound(Current(sc, s), CurrentLedger(sc, s), sem.applied) && Proper(s.ladder, sem)
    ensures Conclude(sc, s, sem).Ok? <==> !CannotAnswer(Current(sc, s), s.ladder, sem)
  {
    hide Scenario.Valid, Asking, Placed, Ask, Current, CurrentLedger, Policy, SpeechFailure, CannotAnswer, HasCopy,
         Conclude, LifeValid, Askable, LadderOk, DistinctKeys, Remaining;
    hide Complete, Done, Sound, Proper;
    CurrentIsAskable(sc, s);
    SoundLedger(Current(sc, s), CurrentLedger(sc, s), sem);
    var expression := Policy(s.ladder, sem).expression;
    AskableAsks(Current(sc, s), expression, sem.applied.Ledger());
    OpenConcludes(sc, s, sem);
    ValidHasCompletion(Current(sc, s));
    SpeechIff(Current(sc, s), s.ladder, sem, CurrentLedger(sc, s),
      Ask(Current(sc, s), false, expression, sem.applied.Ledger()).value.targets);
  }

  /** Once a turn has finished its task, every task up to it is done, in the state where the next lookup is made. */
  lemma FinishedSoFar(sc: Scenario, s: LifeState, sem: Semantics, i: nat)
    requires sc.Valid() && Inv(sc, s) && Placed(sc, s) && AllWritten(sc, s) && !s.completed
    requires i <= s.index < |sc.stages|
    requires Sound(Current(sc, s), CurrentLedger(sc, s), sem.applied) && Done(sem)
    requires Written(Current(sc, s), sem.applied.Ledger())
    ensures StageDone(sc, Finishing(sc, s, sem), i)
  {
    hide Scenario.Valid, Placed, Sound, Done, Finishing, PackOf, LedgerOf, NotesOf, Past, Present, Future,
         FinishedLedger, CourseInv, Complete, Usable, Enterable, Written, AllWritten;
    FinishingKeeps(sc, s, sem, sc.stages[i]);
    CurrentIs(sc, s);
    FinishingWritten(sc, s, sem, i);
    if i == s.index {
      SoundLedger(Current(sc, s), CurrentLedger(sc, s), sem);
      UsableFinished(Current(sc, s), sem.applied.Ledger());
    } else {
      StageIndexOf(sc, s, i);
      assert TaskInv(sc, s, i);
      var st := sc.stages[i];
      FitIsFinished(PackOf(sc, s, st), LedgerOf(sc, s, st), NotesOf(sc, s, st));
    }
  }

  lemma StageIndexOf(sc: Scenario, s: LifeState, i: nat)
    requires Placed(sc, s) && i < |sc.stages|
    ensures sc.stages[i] == sc.stages[s.index] <==> i == s.index
  {
    StageIndex(sc, i, s.index);
  }

  lemma UsableFinished(pack: TaskPack, l: Ledger)
    requires Usable(pack, l) && Complete(pack, l)
    ensures FinishedLedger(pack, l)
  {}

  lemma SameDone(sc: Scenario, s: LifeState, n: LifeState, i: nat)
    requires Placed(sc, s) && Placed(sc, n) && i < |sc.stages| && n.active == s.active && n.ledgers == s.ledgers
    ensures StageDone(sc, n, i) == StageDone(sc, s, i)
    ensures PackOf(sc, n, sc.stages[i]) == PackOf(sc, s, sc.stages[i])
    ensures LedgerOf(sc, n, sc.stages[i]) == LedgerOf(sc, s, sc.stages[i])
  {}

  lemma DeliverEnds(sc: Scenario, m: LifeState, p: LifeState)
    requires Placed(sc, m) && Placed(sc, p) && p.completed
    ensures match FactsOf(sc, Noted(sc, m, p), sc.projections)
            case None => Deliver(sc, m, p) == Err(ProjectionFailed)
            case Some(_) => Deliver(sc, m, p).Ok?
  {}

  lemma DeliverAsks(sc: Scenario, m: LifeState, p: LifeState)
    requires Placed(sc, m) && Placed(sc, p) && !p.completed && AskNext(sc, Noted(sc, m, p)).Ok?
    ensures Deliver(sc, m, p).Ok?
  {}

  lemma ConcludeDelivers(sc: Scenario, s: LifeState, sem: Semantics)
    requires Placed(sc, s) && Done(sem)
    ensures match CompleteTask(sc, Absorb(sc, s, sem), sem.source)
            case Err(e) => Conclude(sc, s, sem) == Err(e)
            case Ok(p) => Conclude(sc, s, sem) == Deliver(sc, Absorb(sc, s, sem), p)
  {
    hide Placed, Absorb, CompleteTask, Deliver, Ask, AskNext, SpeechFailure;
  }

  lemma NotedKeeps(sc: Scenario, m: LifeState, p: LifeState)
    requires Placed(sc, m) && Placed(sc, p)
    ensures var q := Noted(sc, m, p); q == p.(notes := q.notes)
  {}

  /** The state in which the report is made. */
  function Reporting(sc: Scenario, s: LifeState, sem: Semantics): (q: LifeState)
    requires Placed(sc, s)
    ensures Placed(sc, q)
  {
    var p := Ended(Finishing(sc, s, sem));
    Noted(sc, Absorb(sc, s, sem), p)
  }

  lemma ReportingKeeps(sc: Scenario, s: LifeState, sem: Semantics)
    requires Placed(sc, s)
    ensures var f, q := Finishing(sc, s, sem), Reporting(sc, s, sem); q.active == f.active && q.ledgers == f.ledgers
  {
    NotedKeeps(sc, Absorb(sc, s, sem), Ended(Finishing(sc, s, sem)));
  }

  /** How the turn that finishes the last task ends. */
  lemma EndOutcome(sc: Scenario, s: LifeState, sem: Semantics)
    requires Placed(sc, s) && s.index + 1 == |sc.stages| && Done(sem)
    ensures match FactsOf(sc, Reporting(sc, s, sem), sc.projections)
            case None => Conclude(sc, s, sem) == Err(ProjectionFailed)
            case Some(_) => Conclude(sc, s, sem).Ok?
  {
    hide Runnable, InUse, Done, Absorb, Credited, Conclude, CompleteTask, Deliver, Noted, FactsOf;
    var m := Absorb(sc, s, sem);
    AbsorbLeaves(sc, s, sem);
    EndIs(sc, m, sem.source);
    ConcludeDelivers(sc, s, sem);
    DeliverEnds(sc, m, Ended(Credited(sc, m, sem.source)));
  }

  lemma EndSucceeds(sc: Scenario, s: LifeState, sem: Semantics)
    requires sc.Valid() && ProjectionsSealed(sc) && Inv(sc, s) && Placed(sc, s) && AllWritten(sc, s) && !s.completed
    requires s.index + 1 == |sc.stages| && Done(sem)
    requires Sound(Current(sc, s), CurrentLedger(sc, s), sem.applied) && Written(Current(sc, s), sem.applied.Ledger())
    ensures Conclude(sc, s, sem).Ok?
  {
    hide Scenario.Valid, ProjectionsSealed, Placed, Inv, Sound, Done, Finishing, Conclude, Reporting, FactsOf, Current,
         CurrentLedger, StageDone, Written, AllWritten;
    ReportingKeeps(sc, s, sem);
    forall i: nat | i < |sc.stages| ensures StageDone(sc, Reporting(sc, s, sem), i) {
      FinishedSoFar(sc, s, sem, i);
      SameDone(sc, Finishing(sc, s, sem), Reporting(sc, s, sem), i);
    }
    FactsExist(sc, Reporting(sc, s, sem), sc.projections);
    EndOutcome(sc, s, sem);
  }

  lemma EnteredAsks(sc: Scenario, q: LifeState)
    requires sc.Valid() && Asking(sc) && Placed(sc, q) && CurrentLedger(sc, q) == EmptyLedger(Current(sc, q))
    ensures AskNext(sc, q).Ok?
  {
    hide Scenario.Valid, Asking, Placed, Ask, AskNext, Current, CurrentLedger, LifeValid, Askable, EmptyLedger,
         Complete;
    CurrentIsAskable(sc, q);
    FreshTaskFits(Current(sc, q));
    AskableAsks(Current(sc, q), q.ladder.expression, CurrentLedger(sc, q));
    AskingSucceeds(sc, q);
  }

  lemma NotedEntered(sc: Scenario, m: LifeState, f: LifeState, v: string, next: Stage, p: LifeState)
    requires Placed(sc, m) && Placed(sc, f) && f.index + 1 < |sc.stages| && next == sc.stages[f.index + 1]
    requires v in next.variants
    requires p == MoveOn(sc, f, v) && Placed(sc, p)
    ensures CurrentLedger(sc, Noted(sc, m, p)) == EmptyLedger(Current(sc, Noted(sc, m, p)))
  {
    MoveEnters(sc, f, v, next);
    MoveKeeps(sc, f, v);
    NotedKeeps(sc, m, p);
    hide Runnable, MoveOn, Noted, EmptyLedger, EntryLadder;
    assert InUse(p.active, next);
  }

  /** How the turn that finishes an earlier task ends: the next variant is missing, or the next task is entered. */
  lemma MoveOutcome(sc: Scenario, s: LifeState, sem: Semantics)
    requires sc.Valid() && Asking(sc) && Placed(sc, s) && !s.completed && s.index + 1 < |sc.stages| && Done(sem)
    ensures Finishing(sc, s, sem).index == s.index
    ensures match NextVariant(sc, Finishing(sc, s, sem))
            case None => Conclude(sc, s, sem) == Err(SelectorFailed)
            case Some(_) => Conclude(sc, s, sem).Ok?
  {
    hide Scenario.Valid, Asking, Runnable, InUse, Done, Absorb, Credited, Conclude, CompleteTask, Deliver, Noted,
         Current, CurrentLedger, Policy, CreditTurned;
    hide MoveOn, NextVariant, AskNext;
    var m := Absorb(sc, s, sem);
    AbsorbLeaves(sc, s, sem);
    CreditedIs(sc, s, sem);
    var f := Credited(sc, m, sem.source);
    MoveIs(sc, m, f, sem.source);
    ConcludeDelivers(sc, s, sem);
    match NextVariant(sc, f) {
      case None =>
      case Some(v) =>
        var p := MoveOn(sc, f, v);
        NotedEntered(sc, m, f, v, sc.stages[f.index + 1], p);
        EnteredAsks(sc, Noted(sc, m, p));
        MoveKeeps(sc, f, v);
        DeliverAsks(sc, m, p);
    }
  }

  lemma MoveSucceeds(sc: Scenario, s: LifeState, sem: Semantics)
    requires sc.Valid() && Asking(sc) && SelectorsSealed(sc) && Inv(sc, s) && Placed(sc, s) && AllWritten(sc, s)
    requires !s.completed
    requires s.index + 1 < |sc.stages| && Done(sem)
    requires Sound(Current(sc, s), CurrentLedger(sc, s), sem.applied) && Written(Current(sc, s), sem.applied.Ledger())
    ensures Conclude(sc, s, sem).Ok?
  {
    hide Scenario.Valid, Asking, SelectorsSealed, Placed, Inv, Sound, Done, Finishing, Conclude, StageDone, Current,
         CurrentLedger, NextVariant, Written, AllWritten;
    MoveOutcome(sc, s, sem);
    forall i: nat | i <= s.index ensures StageDone(sc, Finishing(sc, s, sem), i) {
      FinishedSoFar(sc, s, sem, i);
    }
    VariantExists(sc, Finishing(sc, s, sem));
  }

  /** What the open task's ledger holds after an interpreted turn: writable values only. */
  lemma InterpretedWritten(sc: Scenario, s: LifeState, t: Turn)
    requires sc.Valid() && Inv(sc, s) && Placed(sc, s) && AllWritten(sc, s) && !s.completed
    requires InterpretLife(sc, s, t).Ok?
    ensures Written(Current(sc, s), InterpretLife(sc, s, t).value.applied.Ledger())
    ensures Sound(Current(sc, s), CurrentLedger(sc, s), InterpretLife(sc, s, t).value.applied)
  {
    hide Scenario.Valid, Inv, Placed, Interpret, Written, Usable, Asked, TaskPack.ValidQuestions, Current,
         CurrentLedger, PackOf, LedgerOf, Enterable, Sound;
    CurrentAsked(sc, s);
    assert TaskWritten(sc, s, s.index);
    LedgerStaysWritten(Current(sc, s), s.ladder, s.subgoal, CurrentLedger(sc, s), t);
    InterpretIsSound(Current(sc, s), s.ladder, s.subgoal, CurrentLedger(sc, s), t);
  }

  /** In a sealed scenario an interpreted turn of any reachable open conversation fails only if it leaves its task open
      and Mormi cannot answer it: no question, variant or reported fact is ever missing. */
  lemma LifeTurnSucceedsIff(sc: Scenario, s: LifeState, t: Turn)
    requires sc.Valid() && Sealed(sc) && Inv(sc, s) && Placed(sc, s) && AllWritten(sc, s) && !s.completed
    requires InterpretLife(sc, s, t).Ok? && Proper(s.ladder, InterpretLife(sc, s, t).value)
    ensures var sem := InterpretLife(sc, s, t).value;
            NextState(sc, s, t).Ok? <==> Done(sem) || !CannotAnswer(Current(sc, s), s.ladder, sem)
  {
    InvPlaced(sc, s);
    InvLadder(sc, s);
    InterpretedWritten(sc, s, t);
    hide Scenario.Valid, Asking, SelectorsSealed, ProjectionsSealed, Placed, Inv, Interpret, Conclude, Sound, Done,
         Proper, CannotAnswer, Current, CurrentLedger, Written, AllWritten;
    var sem := InterpretLife(sc, s, t).value;
    if !Done(sem) {
      OpenTurnSucceeds(sc, s, sem);
    } else if Last(sc, s) {
      EndSucceeds(sc, s, sem);
    } else {
      MoveSucceeds(sc, s, sem);
    }
  }

  lemma InvLadder(sc: Scenario, s: LifeState)
    requires Inv(sc, s)
    ensures LadderOk(s.ladder)
  {}

  // ----- joint work -----

  lemma CurrentIsValid(sc: Scenario, s: LifeState)
    requires sc.Valid() && Placed(sc, s)
    ensures LifeValid(Current(sc, s))
  {
    hide Scenario.Valid, Runnable, InUse, LifeValid;
    PackIsValid(sc, s, sc.stages[s.index]);
  }

  /** At joint work exactly the pinned completion values are accepted, and submitting them finishes the task. */
  lemma JointActionFinishesTask(sc: Scenario, s: LifeState, turn: string, values: map<string, Json>)
    requires sc.Valid() && Sealed(sc) && Inv(sc, s) && Placed(sc, s) && AllWritten(sc, s) && !s.completed
    requires s.ladder.expression == L0 && GoodTurnId(turn)
    ensures var r := NextState(sc, s, Turn.Turn(turn, Action(values)));
            && (r.Ok? <==> values == CompletionValues(Current(sc, s).joint))
            && (r.Ok? ==> r.value.completed || r.value.index == s.index + 1)
  {
    InvCurrent(sc, s);
    InvPlaced(sc, s);
    InvLadder(sc, s);
    hide Scenario.Valid, Asking, SelectorsSealed, ProjectionsSealed, Placed, Inv, Interpret, Conclude, Sound, Current,
         CurrentLedger, NotesFit, HintFits, Complete, WellFormed, LifeValid, CompletionValues, Written, AllWritten;
    var t := Turn.Turn(turn, Action(values));
    var pack, l := Current(sc, s), CurrentLedger(sc, s);
    CurrentIsValid(sc, s);
    ValidHasCompletion(pack);
    HomeRuns.JointIsInterpreted(pack, s.ladder, s.subgoal, l, turn, values);
    if Interpret(pack, s.ladder, s.subgoal, l, t).Ok? {
      var sem := Interpret(pack, s.ladder, s.subgoal, l, t).value;
      InterpretedWritten(sc, s, t);
      if Last(sc, s) { EndSucceeds(sc, s, sem); } else { MoveSucceeds(sc, s, sem); }
      TurnMoves(sc, s, t);
    }
  }

  // ----- termination -----

  function PotentialOf(sc: Scenario, s: LifeState): int
    requires Placed(sc, s)
  {
    HomeRuns.TaskPotential(Current(sc, s), CurrentLedger(sc, s), s.ladder)
  }

  /** The bound of task `i` in its variant of state `s`. */
  function BoundOf(sc: Scenario, s: LifeState, i: nat): nat
    requires Placed(sc, s) && i < |sc.stages|
  {
    HomeRuns.TurnBound(PackOf(sc, s, sc.stages[i]))
  }

  /** Turn `j` is a counted one, taken in task `i` before its joint work. */
  ghost predicate KeptFrom(sc: Scenario, states: seq<LifeState>, turns: seq<Turn>, j: nat, i: nat)
    requires RunFromStart(sc, states, turns) && j < |turns|
  {
    assert turns[j] == turns[j];
    states[j].index == i && states[j].ladder.expression != L0 && SemanticsAt(sc, states[j], turns[j]).Counted()
  }

  /** The counted turns among the first `n` that task `i` kept the child from its joint work. */
  ghost function KeptTurns(sc: Scenario, states: seq<LifeState>, turns: seq<Turn>, n: nat, i: nat): nat
    requires RunFromStart(sc, states, turns) && n <= |turns|
  {
    if n == 0 then 0
    else KeptTurns(sc, states, turns, n - 1, i) + if KeptFrom(sc, states, turns, n - 1, i) then 1 else 0
  }

  /** One turn before joint work stays in its task and spends potential, or leaves the task. */
  lemma TurnSpends(sc: Scenario, s: LifeState, t: Turn)
    requires sc.Valid() && Inv(sc, s) && Placed(sc, s) && !s.completed && s.ladder.expression != L0
    requires NextState(sc, s, t).Ok?
    ensures var n := NextState(sc, s, t).value;
            && (n.index == s.index ==>
                  && PotentialOf(sc, n) <= PotentialOf(sc, s)
                  && (SemanticsAt(sc, s, t).Counted() ==> PotentialOf(sc, n) < PotentialOf(sc, s)))
  {
    InvCurrent(sc, s);
    InvLadder(sc, s);
    hide Scenario.Valid, Placed, Inv, NextState, Sound, Evidenced, OthersSame, CreditTurned, QuestionBound, Policy,
         HomeRuns.TaskPotential, SemanticsAt, NotesFit, HintFits, Complete, Usable;
    hide Current, CurrentLedger, PackOf, LedgerOf, NotesOf, EntryLadder, EmptyLedger, Done, TaskDirect;
    var n := NextState(sc, s, t).value;
    TurnAdvances(sc, s, t);
    InvPlaced(sc, s);
    CurrentIs(sc, s);
    if n.index == s.index {
      CurrentIs(sc, n);
      HomeRuns.TaskTurnSpends(Current(sc, s), CurrentLedger(sc, s), s.ladder, SemanticsAt(sc, s, t));
    }
  }

  /** A turn taken at joint work stays there or leaves the task. */
  lemma JointWorkStays(sc: Scenario, s: LifeState, t: Turn)
    requires sc.Valid() && Inv(sc, s) && Placed(sc, s) && !s.completed && s.ladder.expression == L0
    requires NextState(sc, s, t).Ok?
    ensures var n := NextState(sc, s, t).value; n.index == s.index ==> n.ladder.expression == L0
  {
    hide Scenario.Valid, Placed, Inv, NextState, Sound, Evidenced, OthersSame, CreditTurned, TaskTurned, QuestionBound,
         Policy, SemanticsAt, PackOf, LedgerOf, NotesOf, EntryLadder, EmptyLedger, Done, LadderOk;
    InvLadder(sc, s);
    InvPlaced(sc, s);
    TurnAdvances(sc, s, t);
    PolicyIsMonotone(s.ladder, SemanticsAt(sc, s, t));
  }

  lemma PacksKept(sc: Scenario, s: LifeState, t: Turn, i: nat)
    requires sc.Valid() && Inv(sc, s) && Placed(sc, s) && !s.completed && NextState(sc, s, t).Ok?
    requires i <= s.index < |sc.stages|
    ensures PackOf(sc, NextState(sc, s, t).value, sc.stages[i]) == PackOf(sc, s, sc.stages[i])
  {
    hide Scenario.Valid, Placed, Inv, NextState, Sound, Evidenced, CreditTurned, QuestionBound, SemanticsAt, PackOf,
         LedgerOf, NotesOf, Done, Current;
    TurnAdvances(sc, s, t);
    TurnMoves(sc, s, t);
    CurrentIs(sc, s);
    if i < s.index {
      assert SameTask(sc, s, NextState(sc, s, t).value, sc.stages[i]);
    }
  }

  lemma PotentialOfIsBounded(sc: Scenario, s: LifeState)
    requires Placed(sc, s) && LadderOk(s.ladder) && s.index < |sc.stages|
    ensures 0 <= PotentialOf(sc, s) <= BoundOf(sc, s, s.index)
    ensures s.ladder.expression != L0 ==> 1 <= PotentialOf(sc, s)
  {}

  /** The turns a task kept the child from joint work, and what it can still keep, fit in its own bound. */
  ghost predicate Fits(sc: Scenario, s: LifeState, i: nat, kept: nat)
    requires Placed(sc, s) && i <= s.index < |sc.stages|
  {
    kept + (if s.index == i && s.ladder.expression != L0 then PotentialOf(sc, s) else 0) <= BoundOf(sc, s, i)
  }

  lemma FitsOneMore(sc: Scenario, s: LifeState, t: Turn, i: nat, kept: nat)
    requires sc.Valid() && Inv(sc, s) && Placed(sc, s) && !s.completed && NextState(sc, s, t).Ok?
    requires i <= s.index < |sc.stages|
    requires Inv(sc, NextState(sc, s, t).value) && s.index <= NextState(sc, s, t).value.index < |sc.stages|
    requires Fits(sc, s, i, kept)
    ensures Fits(sc, NextState(sc, s, t).value, i,
                 kept + if s.index == i && s.ladder.expression != L0 && SemanticsAt(sc, s, t).Counted() then 1 else 0)
  {
    hide Scenario.Valid, Placed, Inv, NextState, PotentialOf, HomeRuns.TurnBound, PackOf, SemanticsAt, LadderOk;
    InvLadder(sc, s);
    InvLadder(sc, NextState(sc, s, t).value);
    PacksKept(sc, s, t, i);
    PotentialOfIsBounded(sc, s);
    PotentialOfIsBounded(sc, NextState(sc, s, t).value);
    if s.ladder.expression != L0 { TurnSpends(sc, s, t); } else { JointWorkStays(sc, s, t); }
  }

  /** Every task keeps a child from its joint work for a bounded number of counted turns only, by its own bound,
      whatever happened in the tasks before it. */
  lemma {:induction false} KeptTurnsAreBounded(sc: Scenario, states: seq<LifeState>, turns: seq<Turn>, n: nat, i: nat)
    requires sc.Valid() && RunFromStart(sc, states, turns) && n <= |turns|
    ensures Placed(sc, states[n]) && states[n].index < |sc.stages|
    ensures i > states[n].index ==> KeptTurns(sc, states, turns, n, i) == 0
    ensures i <= states[n].index ==> Fits(sc, states[n], i, KeptTurns(sc, states, turns, n, i))
  {
    hide Scenario.Valid, Placed, Inv, Initial, NextState, Runnable, SemanticsAt, BoundOf, PotentialOf, Done, OthersSame,
         LadderOk;
    RunKeepsInv(sc, states, turns, n);
    InvPlaced(sc, states[n]);
    InvLadder(sc, states[n]);
    PotentialOfIsBounded(sc, states[n]);
    if n > 0 {
      KeptTurnsAreBounded(sc, states, turns, n - 1, i);
      At(sc, states, turns, n - 1);
      TurnMoves(sc, states[n - 1], turns[n - 1]);
      if i <= states[n - 1].index {
        FitsOneMore(sc, states[n - 1], turns[n - 1], i, KeptTurns(sc, states, turns, n - 1, i));
      }
    }
  }

  /** Counted turns among the first `n` that were taken in task `i`. */
  ghost function TaskTurns(sc: Scenario, states: seq<LifeState>, turns: seq<Turn>, n: nat, i: nat): nat
    requires RunFromStart(sc, states, turns) && n <= |turns|
  {
    if n == 0 then 0
    else
      assert turns[n - 1] == turns[n - 1];
      TaskTurns(sc, states, turns, n - 1, i)
      + if states[n - 1].index == i && SemanticsAt(sc, states[n - 1], turns[n - 1]).Counted() then 1 else 0
  }

  lemma {:induction false} AllKept(sc: Scenario, states: seq<LifeState>, turns: seq<Turn>, n: nat, i: nat)
    requires RunFromStart(sc, states, turns) && n <= |turns|
    requires forall j: nat | j < n && states[j].index == i :: states[j].ladder.expression != L0
    ensures TaskTurns(sc, states, turns, n, i) == KeptTurns(sc, states, turns, n, i)
  {
    hide RunFromStart, SemanticsAt;
    if n > 0 { AllKept(sc, states, turns, n - 1, i); }
  }

  /** A task in which more counted turns were taken than its bound has come to joint work at L0 with H3. */
  lemma ConversationsTerminate(sc: Scenario, states: seq<LifeState>, turns: seq<Turn>, i: nat)
    requires sc.Valid() && RunFromStart(sc, states, turns) && Placed(sc, states[|turns|]) && i < |sc.stages|
    requires TaskTurns(sc, states, turns, |turns|, i) > BoundOf(sc, states[|turns|], i)
    ensures exists k: nat ::
            k < |turns| && states[k].index == i && states[k].ladder.expression == L0 && states[k].ladder.hint == H3
  {
    hide Scenario.Valid, Placed, Inv, Initial, NextState, PotentialOf, BoundOf, TaskTurns, KeptTurns, Runnable;
    if k: nat :| k < |turns| && states[k].index == i && states[k].ladder.expression == L0 {
      RunKeepsInv(sc, states, turns, k);
      InvLadder(sc, states[k]);
    } else {
      AllKept(sc, states, turns, |turns|, i);
      KeptTurnsAreBounded(sc, states, turns, |turns|, i);
      RunKeepsInv(sc, states, turns, |turns|);
      InvLadder(sc, states[|turns|]);
      PotentialOfIsBounded(sc, states[|turns|]);
    }
  }
}
