/** Guarantees over whole life conversations, for every sequence of responses. */
module LifeRuns {
  import opened Common
  import opened Content
  import opened Ledgers
  import opened LedgerOperations
  import opened Ladders
  import opened Questions
  import opened Turns
  import opened LifeContent
  import opened LifeEngine
  import opened LifeTurns
  import opened Json
  import Home = HomeEngine
  import HomeRuns

  // ----- the run invariant -----

  /** A finished task, the open one, and one not yet reached. */
  ghost predicate Past(pack: TaskPack, l: Ledger, n: NoteState) {
    TaskFits(pack, l, n) && Complete(pack, l)
  }

  ghost predicate Present(pack: TaskPack, l: Ledger, n: NoteState, hint: HintLevel, completed: bool) {
    && TaskFits(pack, l, n) && HintFits(hint, l, n)
    && (completed <==> Complete(pack, l))
    && (!completed ==> n.emitted.None?)
  }

  ghost predicate Future(pack: TaskPack, l: Ledger, n: NoteState) {
    l == EmptyLedger(pack) && n == FRESH_NOTES
  }

  ghost predicate TaskInv(sc: Scenario, s: LifeState, i: nat)
    requires Placed(sc, s) && i < |sc.stages|
  {
    var st := sc.stages[i];
    var pack, l, n := PackOf(sc, s, st), LedgerOf(sc, s, st), NotesOf(sc, s, st);
    if i < s.index then Past(pack, l, n)
    else if i == s.index then Present(pack, l, n, s.ladder.hint, s.completed)
    else Future(pack, l, n)
  }

  ghost predicate TasksInv(sc: Scenario, s: LifeState)
    requires Placed(sc, s)
  {
    forall i: nat {:trigger TaskInv(sc, s, i)} | i < |sc.stages| :: TaskInv(sc, s, i)
  }

  ghost predicate CourseInv(sc: Scenario, s: LifeState)
    requires Placed(sc, s)
  {
    && LadderOk(s.ladder)
    && (s.completed ==> Last(sc, s))
    && (s.completed <==> s.outcome.Some?)
    && (s.completed <==> s.facts.Some?)
    && (s.completed ==> s.outcome == Some(if s.allDirect && !s.jointUsed then Home.Taught else Home.Supported))
    && (s.reward <==> s.outcome == Some(Home.Taught))
    && (!s.completed ==> QuestionBound(sc, s))
  }

  ghost predicate Inv(sc: Scenario, s: LifeState) {
    Placed(sc, s) && TasksInv(sc, s) && CourseInv(sc, s)
  }

  // ----- the pinned snapshot -----

  /** The scenario snapshot's own validator, with the validators of the note states inside it. */
  ghost predicate SnapshotOk(sc: Scenario, s: LifeState) {
    && s.active.Keys == s.ledgers.Keys == s.notes.Keys == sc.TaskIds()
    && forall st | st in sc.stages :: StageSnapshotOk(s, st)
  }

  ghost predicate StageSnapshotOk(s: LifeState, st: Stage) {
    && st.taskId in s.active && st.taskId in s.ledgers && st.taskId in s.notes && s.active[st.taskId] in st.variants
    && TaskSnapshotOk(st.variants[s.active[st.taskId]], s.ledgers[st.taskId], s.notes[st.taskId])
  }

  ghost predicate TaskSnapshotOk(pack: TaskPack, l: Ledger, n: NoteState) {
    && l.binding == pack.binding && BoundTo(l, pack) && WellFormed(l)
    && n.independent.Keys + n.supported <= NoteSet(pack)
    && NoteSet(pack) <= pack.relations
    && n.independent.Keys !! n.supported
    && (forall r | r in n.independent :: n.independent[r] != [] && Unique(n.independent[r]))
    && (n.emitted.Some? ==> pack.noteRelations != [])
  }

  lemma FitIsSnapshotOk(pack: TaskPack, l: Ledger, n: NoteState)
    requires LifeValid(pack) && TaskFits(pack, l, n)
    ensures TaskSnapshotOk(pack, l, n)
  {}

  lemma PackIsValid(sc: Scenario, s: LifeState, st: Stage)
    requires sc.Valid() && Placed(sc, s) && st in sc.stages
    ensures LifeValid(PackOf(sc, s, st))
  {
    hide Wired;
    assert InUse(s.active, st);
    assert LifeValid(st.variants[s.active[st.taskId]]);
  }

  lemma TaskInvFits(sc: Scenario, s: LifeState, i: nat)
    requires sc.Valid() && Placed(sc, s) && i < |sc.stages| && TaskInv(sc, s, i)
    ensures TaskFits(PackOf(sc, s, sc.stages[i]), LedgerOf(sc, s, sc.stages[i]), NotesOf(sc, s, sc.stages[i]))
  {
    PackIsValid(sc, s, sc.stages[i]);
    hide Placed, TaskFits, LifeValid, Complete, PackOf, LedgerOf, NotesOf;
    FreshTaskFits(PackOf(sc, s, sc.stages[i]));
  }

  lemma StageIsSnapshotOk(sc: Scenario, s: LifeState, i: nat)
    requires sc.Valid() && Placed(sc, s) && i < |sc.stages| && TaskInv(sc, s, i)
    ensures StageSnapshotOk(s, sc.stages[i])
  {
    var st := sc.stages[i];
    assert InUse(s.active, st);
    TaskInvFits(sc, s, i);
    PackIsValid(sc, s, st);
    FitIsSnapshotOk(PackOf(sc, s, st), LedgerOf(sc, s, st), NotesOf(sc, s, st));
    hide TaskSnapshotOk, TaskFits, TaskInv, Runnable, Scenario.Valid, LifeValid;
  }

  /** A state that keeps the invariant passes the snapshot's validator, which runs before every turn. */
  lemma InvIsSnapshotOk(sc: Scenario, s: LifeState)
    requires sc.Valid() && Inv(sc, s)
    ensures SnapshotOk(sc, s)
  {
    hide Scenario.Valid, Runnable, InUse, TaskInv, StageSnapshotOk, CourseInv;
    forall st | st in sc.stages ensures StageSnapshotOk(s, st) {
      var i: nat :| i < |sc.stages| && sc.stages[i] == st;
      assert TaskInv(sc, s, i);
      StageIsSnapshotOk(sc, s, i);
    }
  }

  // ----- every turn keeps it -----

  function SemanticsAt(sc: Scenario, s: LifeState, t: Turn): Semantics
    requires Placed(sc, s) && NextState(sc, s, t).Ok?
  {
    InterpretLife(sc, s, t).value
  }

  /** A turn taken in a good state is sound and evidenced for its task, and advances the scenario. */
  lemma TurnAdvances(sc: Scenario, s: LifeState, t: Turn)
    requires sc.Valid() && Inv(sc, s) && !s.completed && NextState(sc, s, t).Ok?
    ensures var sem := SemanticsAt(sc, s, t);
            && Sound(Current(sc, s), CurrentLedger(sc, s), sem.applied)
            && Evidenced(CurrentLedger(sc, s), sem.applied.progress)
            && Advanced(sc, s, NextState(sc, s, t).value, sem)
  {
    CurrentPresent(sc, s);
    var sem := SemanticsAt(sc, s, t);
    hide Scenario.Valid, Placed, TasksInv, Interpret, Conclude, Sound, Evidenced, Advanced, Complete, WellFormed,
         BoundTo, NotesFit, HintFits;
    InterpretIsSound(Current(sc, s), s.ladder, s.subgoal, CurrentLedger(sc, s), t);
    InterpretIsEvidenced(Current(sc, s), s.ladder, s.subgoal, CurrentLedger(sc, s), t);
    ConcludeAdvances(sc, s, sem);
  }

  lemma CurrentPresent(sc: Scenario, s: LifeState)
    requires Placed(sc, s) && TasksInv(sc, s)
    ensures Present(Current(sc, s), CurrentLedger(sc, s), CurrentNotes(sc, s), s.ladder.hint, s.completed)
  {
    hide Runnable, InUse, Present;
    assert TaskInv(sc, s, s.index);
  }

  lemma SoundLedger(pack: TaskPack, l: Ledger, sem: Semantics)
    requires Sound(pack, l, sem.applied)
    ensures Usable(pack, sem.applied.Ledger())
    ensures Done(sem) <==> Complete(pack, sem.applied.Ledger())
  {}

  lemma EmitFits(pack: TaskPack, l: Ledger, n: NoteState, hint: HintLevel)
    ensures NotesFit(pack, l, n) ==> NotesFit(pack, l, Emit(pack, l, n))
    ensures HintFits(hint, l, n) ==> HintFits(hint, l, Emit(pack, l, n))
    ensures Emit(pack, l, n).independent == n.independent && Emit(pack, l, n).supported == n.supported
  {}

  lemma TrackEmitsNothing(pack: TaskPack, n: NoteState, sem: Semantics, before: HintLevel, after: HintLevel)
    ensures Track(pack, n, sem, before, after).emitted == n.emitted
  {}

  /** A sound turn taken in an open task leaves it present while it stays open, and past once it is done. */
  lemma TaskStepFits(pack: TaskPack, l: Ledger, n: NoteState, sem: Semantics, before: HintLevel, after: HintLevel)
    requires Present(pack, l, n, before, false) && HintRank(before) <= HintRank(after)
    requires Sound(pack, l, sem.applied) && Evidenced(l, sem.applied.progress)
    ensures var m := sem.applied.Ledger();
            var t := Track(pack, n, sem, before, after);
            && (!Done(sem) ==> Present(pack, m, t, after, false))
            && (Done(sem) ==> Present(pack, m, Emit(pack, m, t), after, true) && Past(pack, m, Emit(pack, m, t)))
  {
    hide Track, Emit, NotesFit, HintFits, Usable, Complete, Sound, Evidenced, Done, HintRank;
    SoundLedger(pack, l, sem);
    TrackFits(pack, l, n, sem, before, after);
    TrackEmitsNothing(pack, n, sem, before, after);
    EmitFits(pack, sem.applied.Ledger(), Track(pack, n, sem, before, after), after);
  }

  /** The task a turn was taken in. */
  ghost predicate TaskLeft(sc: Scenario, s: LifeState, n: LifeState, sem: Semantics)
    requires Placed(sc, s) && Placed(sc, n)
  {
    var st := sc.stages[s.index];
    var pack, l, m := PackOf(sc, n, st), LedgerOf(sc, n, st), NotesOf(sc, n, st);
    Present(pack, l, m, Policy(s.ladder, sem).hint, Done(sem)) && (Done(sem) ==> Past(pack, l, m))
  }

  lemma TurnedTaskFits(sc: Scenario, s: LifeState, n: LifeState, sem: Semantics)
    requires Placed(sc, s) && Placed(sc, n) && LadderOk(s.ladder)
    requires Present(Current(sc, s), CurrentLedger(sc, s), CurrentNotes(sc, s), s.ladder.hint, false)
    requires Sound(Current(sc, s), CurrentLedger(sc, s), sem.applied)
    requires Evidenced(CurrentLedger(sc, s), sem.applied.progress)
    requires TaskTurned(sc, s, n, sem)
    ensures TaskLeft(sc, s, n, sem)
  {
    PolicyIsMonotone(s.ladder, sem);
    TaskStepFits(Current(sc, s), CurrentLedger(sc, s), CurrentNotes(sc, s), sem, s.ladder.hint,
      Policy(s.ladder, sem).hint);
    hide Placed, PackOf, LedgerOf, NotesOf, Current, CurrentLedger, CurrentNotes, Policy, Track, Emit, Sound,
         Evidenced, Done, Present, Past, LadderOk;
  }

  lemma CourseContinues(sc: Scenario, s: LifeState, n: LifeState, sem: Semantics)
    requires Placed(sc, s) && Placed(sc, n) && EntriesOpen(sc) && CourseInv(sc, s) && !s.completed
    requires Position(sc, s, n, sem)
    ensures CourseInv(sc, n)
  {
    hide Runnable, InUse, PackOf, LedgerOf, NotesOf, QuestionBound, Policy, Done, LadderOk, EntryLadder, EmptyLedger,
         EntriesOpen;
    if !Done(sem) || Last(sc, s) {
      PolicyIsMonotone(s.ladder, sem);
    } else {
      EntryOfPack(sc, n, sc.stages[s.index + 1]);
    }
  }

  lemma EntryOfPack(sc: Scenario, n: LifeState, st: Stage)
    requires Placed(sc, n) && EntriesOpen(sc) && st in sc.stages
    ensures LadderOk(EntryLadder(PackOf(sc, n, st)))
  {
    assert InUse(n.active, st);
    hide Runnable;
  }

  lemma TaskContinues(sc: Scenario, s: LifeState, n: LifeState, sem: Semantics, i: nat)
    requires sc.Valid() && Placed(sc, s) && Placed(sc, n) && TasksInv(sc, s) && !s.completed
    requires TaskLeft(sc, s, n, sem) && OthersSame(sc, s, n) && Position(sc, s, n, sem) && i < |sc.stages|
    ensures TaskInv(sc, n, i)
  {
    hide Scenario.Valid, Runnable, InUse, PackOf, LedgerOf, NotesOf, QuestionBound, Policy, Done, EmptyLedger,
         Present, Past;
    assert TaskInv(sc, s, i);
    if i == s.index {
    } else if i == n.index {
      var st := sc.stages[i];
      PackIsValid(sc, n, st);
      EnteredIsPresent(PackOf(sc, n, st), n.ladder.hint);
    } else {
      assert SameTask(sc, s, n, sc.stages[i]);
    }
  }

  lemma EnteredIsPresent(pack: TaskPack, hint: HintLevel)
    requires LifeValid(pack)
    ensures Present(pack, EmptyLedger(pack), FRESH_NOTES, hint, false)
  {
    hide LifeValid, TaskFits, Complete, EmptyLedger;
    FreshTaskFits(pack);
  }

  /** Every turn keeps the invariant. */
  lemma TurnKeepsInv(sc: Scenario, s: LifeState, t: Turn)
    requires sc.Valid() && Inv(sc, s) && !s.completed && NextState(sc, s, t).Ok?
    ensures Inv(sc, NextState(sc, s, t).value)
  {
    hide Scenario.Valid, Runnable, InUse, TaskInv, TaskLeft, Present, Past, OthersSame, TaskTurned, CreditTurned,
         Position, NextState, Sound, Evidenced, LadderOk;
    hide PackOf, LedgerOf, NotesOf, QuestionBound, Current, CurrentLedger, CurrentNotes;
    var n := NextState(sc, s, t).value;
    var sem := SemanticsAt(sc, s, t);
    TurnAdvances(sc, s, t);
    CurrentPresent(sc, s);
    TurnedTaskFits(sc, s, n, sem);
    ValidEntriesOpen(sc);
    CourseContinues(sc, s, n, sem);
    forall i: nat | i < |sc.stages| ensures TaskInv(sc, n, i) {
      TaskContinues(sc, s, n, sem, i);
    }
  }

  lemma StartIsFresh(sc: Scenario, i: nat)
    requires Runnable(sc) && i < |sc.stages|
    ensures var s := Start(sc);
            var st := sc.stages[i];
            Future(PackOf(sc, s, st), LedgerOf(sc, s, st), NotesOf(sc, s, st))
  {
    UniqueStages(sc);
    assert Wired(sc, sc.stages[i]);
    assert InUse(Start(sc).active, sc.stages[i]);
    assert FindStage(sc.stages, sc.stages[i].taskId) == Some(sc.stages[i]);
    hide OneTargetEach, EntryLadder;
  }

  lemma InitialShape(sc: Scenario)
    requires Runnable(sc) && EntriesOpen(sc) && Initial(sc).Ok?
    ensures var s := Initial(sc).value;
            && s == Start(sc).(subgoal := s.subgoal) && QuestionBound(sc, s) && LadderOk(s.ladder)
            && s.index == 0 && !s.completed && s.outcome.None? && s.facts.None? && !s.reward && s.allDirect
                 && !s.jointUsed
  {
    hide Ask;
    assert Wired(sc, sc.stages[0]);
    assert sc.stages[0].variants[sc.stages[0].defaultVariant].entryLevel != L0;
    AskNextOutcome(sc, Start(sc));
  }

  lemma InitialTask(sc: Scenario, s: LifeState, i: nat)
    requires sc.Valid() && Placed(sc, s) && i < |sc.stages| && s.index == 0 && !s.completed
    requires s.active == Start(sc).active && s.ledgers == Start(sc).ledgers && s.notes == Start(sc).notes
    ensures TaskInv(sc, s, i)
  {
    hide Scenario.Valid, Runnable, InUse, Start, PackOf, LedgerOf, NotesOf, Present, Past, EmptyLedger;
    StartIsFresh(sc, i);
    SameMaps(sc, Start(sc), s, sc.stages[i]);
    PackIsValid(sc, s, sc.stages[i]);
    EnteredIsPresent(PackOf(sc, s, sc.stages[i]), s.ladder.hint);
  }

  /** A conversation starts well. */
  lemma InitialSatisfiesInv(sc: Scenario)
    requires sc.Valid() && Runnable(sc) && Initial(sc).Ok?
    ensures Inv(sc, Initial(sc).value)
  {
    hide Scenario.Valid, Placed, Start, Initial, EntriesOpen, QuestionBound, LadderOk, TaskInv;
    ValidEntriesOpen(sc);
    InitialShape(sc);
    var s := Initial(sc).value;
    forall i: nat | i < |sc.stages| ensures TaskInv(sc, s, i) {
      InitialTask(sc, s, i);
    }
  }

  // ----- runs -----

  /** A conversation: consecutive states, each reached from an active one by a turn that succeeded. */
  ghost predicate Run(sc: Scenario, states: seq<LifeState>, turns: seq<Turn>) {
    && |states| == |turns| + 1
    && (forall i {:trigger states[i]} :: 0 <= i < |states| ==> Placed(sc, states[i]))
    && (forall i {:trigger turns[i]} :: 0 <= i < |turns| ==>
          !states[i].completed && NextState(sc, states[i], turns[i]) == Ok(states[i + 1]))
  }

  ghost predicate RunFromStart(sc: Scenario, states: seq<LifeState>, turns: seq<Turn>) {
    Runnable(sc) && Run(sc, states, turns) && Initial(sc) == Ok(states[0])
  }

  lemma {:induction false} RunKeepsInv(sc: Scenario, states: seq<LifeState>, turns: seq<Turn>, n: nat)
    requires sc.Valid() && RunFromStart(sc, states, turns) && n < |states|
    ensures Inv(sc, states[n])
  {
    hide Scenario.Valid, NextState, Inv, Initial, Placed;
    if n == 0 {
      InitialSatisfiesInv(sc);
    } else {
      RunKeepsInv(sc, states, turns, n - 1);
      assert NextState(sc, states[n - 1], turns[n - 1]) == Ok(states[n]);
      TurnKeepsInv(sc, states[n - 1], turns[n - 1]);
    }
  }

  /** After every turn of every conversation the pinned snapshot passes its own validator. */
  lemma SnapshotsStayValid(sc: Scenario, states: seq<LifeState>, turns: seq<Turn>, n: nat)
    requires sc.Valid() && RunFromStart(sc, states, turns) && n < |states|
    ensures SnapshotOk(sc, states[n])
  {
    hide Scenario.Valid, RunFromStart, Inv, SnapshotOk;
    RunKeepsInv(sc, states, turns, n);
    InvIsSnapshotOk(sc, states[n]);
  }
}
