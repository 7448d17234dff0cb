/** Who gets credit in a life conversation: finished tasks are frozen, each note relation is credited to the turn that
    first verified it, and the scenario is taught iff every task was. */
module LifeCredit {
  import opened Common
  import opened Content
  import opened Ledgers
  import opened LedgerOperations
  import opened Ladders
  import opened Questions
  import opened Turns
  import opened LifeContent
  import opened LifeEngine
  import opened LifeTurns
  import opened LifeRuns
  import Home = HomeEngine

  // ----- finished tasks -----

  /** A turn moves at most one task ahead, exactly when it finishes its task before the last, and touches no finished
      one. */
  lemma TurnMoves(sc: Scenario, s: LifeState, t: Turn)
    requires sc.Valid() && Inv(sc, s) && !s.completed && NextState(sc, s, t).Ok?
    ensures var n := NextState(sc, s, t).value;
            && n.index == (if Done(SemanticsAt(sc, s, t)) && !Last(sc, s) then s.index + 1 else s.index)
            && (n.completed <==> Done(SemanticsAt(sc, s, t)) && Last(sc, s))
            && OthersSame(sc, s, n)
  {
    hide Scenario.Valid, Inv, Placed, NextState, Done, OthersSame, TaskTurned, CreditTurned, QuestionBound, Sound,
         Evidenced, SemanticsAt, Policy;
    hide PackOf, LedgerOf, NotesOf, EntryLadder, EmptyLedger, Current, CurrentLedger;
    TurnAdvances(sc, s, t);
  }

  /** The states of a run are good; its turns succeeded. */
  lemma At(sc: Scenario, states: seq<LifeState>, turns: seq<Turn>, k: nat)
    requires sc.Valid() && RunFromStart(sc, states, turns) && k < |turns|
    ensures Inv(sc, states[k]) && Inv(sc, states[k + 1]) && !states[k].completed
    ensures Placed(sc, states[k]) && Placed(sc, states[k + 1])
    ensures NextState(sc, states[k], turns[k]) == Ok(states[k + 1])
  {
    hide Scenario.Valid, Inv, Initial, NextState;
    RunKeepsInv(sc, states, turns, k);
    RunKeepsInv(sc, states, turns, k + 1);
    assert turns[k] == turns[k];
    InvPlaced(sc, states[k + 1]);
  }

  lemma InvPlaced(sc: Scenario, s: LifeState)
    requires Inv(sc, s)
    ensures Placed(sc, s) && s.index < |sc.stages|
  {}

  /** The task index never falls, and a finished task's variant, ledger and provenance never change again. */
  lemma {:induction false} FinishedTasksAreFrozen(sc: Scenario, states: seq<LifeState>, turns: seq<Turn>, p: nat,
      q: nat)
    requires sc.Valid() && RunFromStart(sc, states, turns) && p <= q < |states|
    ensures Placed(sc, states[p]) && Placed(sc, states[q])
    ensures states[p].index <= states[q].index
    ensures forall i: nat | i < states[p].index :: SameTask(sc, states[p], states[q], sc.stages[i])
    decreases q
  {
    hide Scenario.Valid, Inv, Runnable, InUse, Initial, NextState, SemanticsAt, Done, PackOf, LedgerOf, NotesOf;
    RunKeepsInv(sc, states, turns, p);
    InvPlaced(sc, states[p]);
    if p < q {
      FinishedTasksAreFrozen(sc, states, turns, p, q - 1);
      At(sc, states, turns, q - 1);
      TurnMoves(sc, states[q - 1], turns[q - 1]);
    }
  }

  // ----- credit of one relation -----

  /** A direct turn of the open task verified relation `r` for the first time. */
  ghost predicate TeachesAt(sc: Scenario, s: LifeState, n: LifeState, source: Source, r: string)
    requires Placed(sc, s) && Placed(sc, n)
  {
    var st := sc.stages[s.index];
    source == SonnetLow && s.ladder.hint in {H0, H1} && r !in LedgerOf(sc, s, st).relations
      && r in LedgerOf(sc, n, st).relations
  }

  ghost function SourceAt(sc: Scenario, states: seq<LifeState>, turns: seq<Turn>, j: nat): Source
    requires RunFromStart(sc, states, turns) && j < |turns|
  {
    assert turns[j] == turns[j];
    SemanticsAt(sc, states[j], turns[j]).source
  }

  /** Turn `k` taught relation `r` of task `i` directly: free text, begun at H0 or H1, verified it for the first
      time. */
  ghost predicate TaughtAt(sc: Scenario, states: seq<LifeState>, turns: seq<Turn>, k: nat, i: nat, r: string)
    requires RunFromStart(sc, states, turns) && k < |turns|
  {
    states[k].index == i && TeachesAt(sc, states[k], states[k + 1], SourceAt(sc, states, turns, k), r)
  }

  ghost predicate TaughtBefore(sc: Scenario, states: seq<LifeState>, turns: seq<Turn>, n: nat, i: nat, r: string)
    requires RunFromStart(sc, states, turns) && n <= |turns|
  {
    exists k: nat :: k < n && TaughtAt(sc, states, turns, k, i, r)
  }

  lemma TurnCredits(sc: Scenario, s: LifeState, t: Turn, r: string)
    requires sc.Valid() && Inv(sc, s) && !s.completed && NextState(sc, s, t).Ok?
    ensures var n := NextState(sc, s, t).value;
            var st := sc.stages[s.index];
            && PackOf(sc, n, st) == PackOf(sc, s, st)
            && (r in NotesOf(sc, n, st).independent <==>
                 || r in NotesOf(sc, s, st).independent
                 || (r in NoteSet(PackOf(sc, s, st)) && TeachesAt(sc, s, n, SemanticsAt(sc, s, t).source, r)))
  {
    hide Scenario.Valid, Inv, Placed, NextState, OthersSame, CreditTurned, Position, Sound, Evidenced, SemanticsAt,
         Policy, Track, NoteSet;
    hide PackOf, LedgerOf, NotesOf, TaskFits, NotesFit, HintFits, Complete, Emit, Current, CurrentLedger, CurrentNotes;
    InvPlaced(sc, s);
    var sem := SemanticsAt(sc, s, t);
    TurnAdvances(sc, s, t);
    InvCurrent(sc, s);
    CurrentIs(sc, s);
    var pack := Current(sc, s);
    EmitFits(pack, sem.applied.Ledger(), Tracked(sc, s, sem), H0);
    TaskFitsNotes(pack, CurrentLedger(sc, s), CurrentNotes(sc, s));
    TrackCredits(pack, CurrentLedger(sc, s), CurrentNotes(sc, s), sem, s.ladder.hint, Policy(s.ladder, sem).hint, r);
  }

  lemma TaskFitsNotes(pack: TaskPack, l: Ledger, n: NoteState)
    requires TaskFits(pack, l, n)
    ensures NotesFit(pack, l, n)
  {}

  lemma CurrentIs(sc: Scenario, s: LifeState)
    requires Placed(sc, s)
    ensures var st := sc.stages[s.index];
            && Current(sc, s) == PackOf(sc, s, st) && CurrentLedger(sc, s) == LedgerOf(sc, s, st)
            && CurrentNotes(sc, s) == NotesOf(sc, s, st)
  {}

  lemma InvCurrent(sc: Scenario, s: LifeState)
    requires Inv(sc, s)
    ensures Placed(sc, s)
    ensures Present(Current(sc, s), CurrentLedger(sc, s), CurrentNotes(sc, s), s.ladder.hint, s.completed)
  {
    hide Placed, TasksInv, CourseInv, Present;
    CurrentPresent(sc, s);
  }

  lemma InitialNotes(sc: Scenario, s: LifeState, st: Stage)
    requires sc.Valid() && Runnable(sc) && Initial(sc) == Ok(s) && st in sc.stages
    ensures NotesOf(sc, s, st) == FRESH_NOTES
  {
    hide Scenario.Valid, Wired, InUse, Ask, EntriesOpen, QuestionBound;
    ValidEntriesOpen(sc);
    InitialShape(sc);
  }

  /** A task just entered has no credit yet. */
  lemma EnteredNotes(sc: Scenario, s: LifeState, t: Turn, i: nat)
    requires sc.Valid() && Inv(sc, s) && !s.completed && NextState(sc, s, t).Ok?
    requires i == NextState(sc, s, t).value.index > s.index
    ensures NotesOf(sc, NextState(sc, s, t).value, sc.stages[i]) == FRESH_NOTES
  {
    hide Scenario.Valid, NextState, OthersSame, CreditTurned, TaskTurned, Sound, Evidenced, SemanticsAt, Policy,
         Runnable, InUse, CourseInv;
    hide PackOf, LedgerOf, NotesOf, Past, Present, QuestionBound, EntryLadder;
    TurnAdvances(sc, s, t);
    TurnMoves(sc, s, t);
    assert TaskInv(sc, s, i);
  }

  lemma EarlierKept(sc: Scenario, s: LifeState, n: LifeState, i: nat)
    requires Placed(sc, s) && Placed(sc, n) && OthersSame(sc, s, n) && i < s.index <= n.index && i < |sc.stages|
    ensures PackOf(sc, n, sc.stages[i]) == PackOf(sc, s, sc.stages[i])
    ensures NotesOf(sc, n, sc.stages[i]) == NotesOf(sc, s, sc.stages[i])
  {}

  /** The child is credited with exactly the note relations of a task that a direct turn of that task verified first. */
  lemma {:induction false} CreditIsExact(sc: Scenario, states: seq<LifeState>, turns: seq<Turn>, n: nat, i: nat,
      r: string)
    requires sc.Valid() && RunFromStart(sc, states, turns) && n <= |turns| && Placed(sc, states[n])
    requires i <= states[n].index < |sc.stages|
    ensures r in NotesOf(sc, states[n], sc.stages[i]).independent <==>
            r in NoteSet(PackOf(sc, states[n], sc.stages[i])) && TaughtBefore(sc, states, turns, n, i, r)
  {
    hide Scenario.Valid, Inv, Placed, Initial, NextState, NotesOf, PackOf, TeachesAt, SourceAt, SemanticsAt, NoteSet,
         Runnable, Done, OthersSame;
    if n == 0 {
      InitialNotes(sc, states[0], sc.stages[i]);
    } else {
      At(sc, states, turns, n - 1);
      var s := states[n - 1];
      InvPlaced(sc, s);
      TurnMoves(sc, s, turns[n - 1]);
      TurnCredits(sc, s, turns[n - 1], r);
      SourceIs(sc, states, turns, n - 1);
      assert TaughtBefore(sc, states, turns, n, i, r) <==>
             TaughtBefore(sc, states, turns, n - 1, i, r) || TaughtAt(sc, states, turns, n - 1, i, r);
      if i > s.index {
        EnteredNotes(sc, s, turns[n - 1], i);
        NothingTaughtAhead(sc, states, turns, n, i, r);
      } else {
        CreditIsExact(sc, states, turns, n - 1, i, r);
        if i < s.index {
          EarlierKept(sc, s, states[n], i);
        }
      }
    }
  }

  /** No turn teaches a task that has not been reached. */
  lemma NothingTaughtAhead(sc: Scenario, states: seq<LifeState>, turns: seq<Turn>, n: nat, i: nat, r: string)
    requires sc.Valid() && RunFromStart(sc, states, turns) && 0 < n <= |turns| && states[n - 1].index < i < |sc.stages|
    ensures !TaughtBefore(sc, states, turns, n, i, r)
  {
    hide Scenario.Valid, Placed, Initial, NextState, LedgerOf, SameTask;
    forall k: nat | k < n ensures !TaughtAt(sc, states, turns, k, i, r) {
      FinishedTasksAreFrozen(sc, states, turns, k, n - 1);
    }
  }

  // ----- the note of a task -----

  /** The turn that finishes a task sends its note out iff the task has one and all its relations are verified; it is
      the child's iff all of them were taught and no joint action was used. */
  lemma FinishingTurnEmits(sc: Scenario, s: LifeState, t: Turn)
    requires sc.Valid() && Inv(sc, s) && !s.completed && NextState(sc, s, t).Ok? && Done(SemanticsAt(sc, s, t))
    ensures var n := NextState(sc, s, t).value;
            var st := sc.stages[s.index];
            var pack, l, note := PackOf(sc, n, st), LedgerOf(sc, n, st), NotesOf(sc, n, st);
            && (note.emitted.Some? <==> pack.noteRelations != [] && NoteSet(pack) <= l.relations.Keys)
            && (note.emitted == Some(ByChild) <==> note.emitted.Some? && AllTaught(pack, note) && !note.jointUsed)
  {
    hide Scenario.Valid, Inv, Placed, NextState, OthersSame, CreditTurned, Position, Sound, Evidenced, SemanticsAt,
         Policy, Track;
    hide PackOf, LedgerOf, NotesOf, TaskFits, HintFits, Complete, Current, CurrentLedger, CurrentNotes, Done, AllTaught;
    InvPlaced(sc, s);
    var sem := SemanticsAt(sc, s, t);
    TurnAdvances(sc, s, t);
    InvCurrent(sc, s);
    TrackEmitsNothing(Current(sc, s), CurrentNotes(sc, s), sem, s.ladder.hint, Policy(s.ladder, sem).hint);
    EmittedNote(Current(sc, s), sem.applied.Ledger(), Tracked(sc, s, sem));
  }

  lemma EmittedNote(pack: TaskPack, l: Ledger, n: NoteState)
    requires n.emitted.None?
    ensures var note := Emit(pack, l, n);
            && (note.emitted.Some? <==> pack.noteRelations != [] && NoteSet(pack) <= l.relations.Keys)
            && (note.emitted == Some(ByChild) <==> note.emitted.Some? && AllTaught(pack, note) && !note.jointUsed)
  {
    hide Elements;
  }

  // ----- credit of the scenario -----

  /** The pack of task `i` after turn `j`. */
  ghost function PackAfter(sc: Scenario, states: seq<LifeState>, turns: seq<Turn>, j: nat, i: nat): TaskPack
    requires RunFromStart(sc, states, turns) && j < |turns| && i < |sc.stages|
  {
    assert turns[j] == turns[j];
    PackOf(sc, states[j + 1], sc.stages[i])
  }

  /** Turn `j` finished task `i`. */
  ghost predicate Finishes(sc: Scenario, states: seq<LifeState>, turns: seq<Turn>, j: nat, i: nat)
    requires RunFromStart(sc, states, turns) && j < |turns|
  {
    assert turns[j] == turns[j];
    states[j].index == i && Done(SemanticsAt(sc, states[j], turns[j]))
  }

  /** Every note relation of task `i` had been taught directly when turn `j` was over. */
  ghost predicate NotesTaught(sc: Scenario, states: seq<LifeState>, turns: seq<Turn>, j: nat, i: nat)
    requires RunFromStart(sc, states, turns) && j < |turns| && i < |sc.stages|
  {
    forall r | r in NoteSet(PackAfter(sc, states, turns, j, i)) :: TaughtBefore(sc, states, turns, j + 1, i, r)
  }

  /** Finishing task `i` in turn `j` was the child's own doing: every note relation of the task was taught directly, or,
      in a task without a note, the finishing turn was free text; and it was not the joint action. */
  ghost predicate OwnDoing(sc: Scenario, states: seq<LifeState>, turns: seq<Turn>, j: nat, i: nat)
    requires RunFromStart(sc, states, turns) && j < |turns| && i < |sc.stages|
  {
    && SourceAt(sc, states, turns, j) != StructuredJoint
    && (if PackAfter(sc, states, turns, j, i).noteRelations != [] then NotesTaught(sc, states, turns, j, i)
        else SourceAt(sc, states, turns, j) == SonnetLow)
  }

  ghost predicate TaskTaught(sc: Scenario, states: seq<LifeState>, turns: seq<Turn>, n: nat, i: nat)
    requires RunFromStart(sc, states, turns) && n <= |turns| && i < |sc.stages|
  {
    exists j: nat :: j < n && Finishes(sc, states, turns, j, i) && OwnDoing(sc, states, turns, j, i)
  }

  predicate Finished(s: LifeState, i: nat) { i < s.index || (i == s.index && s.completed) }

  ghost predicate AllTaskTaught(sc: Scenario, states: seq<LifeState>, turns: seq<Turn>, n: nat)
    requires RunFromStart(sc, states, turns) && n <= |turns|
  {
    forall i: nat {:trigger TaskTaught(sc, states, turns, n, i)} | i < |sc.stages| && Finished(states[n], i) ::
      TaskTaught(sc, states, turns, n, i)
  }

  /** The provenance of task `i` in state `n` says its completion was direct. */
  ghost predicate DirectIn(sc: Scenario, n: LifeState, i: nat, source: Source)
    requires Placed(sc, n) && i < |sc.stages|
  {
    TaskDirect(PackOf(sc, n, sc.stages[i]), NotesOf(sc, n, sc.stages[i]), source)
  }

  /** What a turn does to the credit of the scenario. */
  lemma TurnCreditsScenario(sc: Scenario, s: LifeState, t: Turn)
    requires sc.Valid() && Inv(sc, s) && !s.completed && NextState(sc, s, t).Ok?
    ensures var n := NextState(sc, s, t).value;
            var sem := SemanticsAt(sc, s, t);
            if Done(sem) then
              n.allDirect && !n.jointUsed <==>
              s.allDirect && !s.jointUsed && sem.source != StructuredJoint && DirectIn(sc, n, s.index, sem.source)
            else n.allDirect == s.allDirect && n.jointUsed == s.jointUsed
  {
    hide Scenario.Valid, Inv, Placed, NextState, OthersSame, Position, Sound, Evidenced, SemanticsAt, Policy, Track,
         Done;
    hide PackOf, LedgerOf, NotesOf, Current, CurrentNotes, Emit, Tracked;
    InvPlaced(sc, s);
    var sem := SemanticsAt(sc, s, t);
    TurnAdvances(sc, s, t);
    EmitFits(Current(sc, s), sem.applied.Ledger(), Tracked(sc, s, sem), H0);
  }

  /** A task finishes once: when turn `n` finishes it, no earlier turn did. */
  lemma FinishesOnce(sc: Scenario, states: seq<LifeState>, turns: seq<Turn>, j: nat, n: nat, i: nat)
    requires sc.Valid() && RunFromStart(sc, states, turns) && j < n < |turns| && Finishes(sc, states, turns, j, i)
    ensures states[n].index > i
  {
    hide Scenario.Valid, Inv, Placed, Initial, NextState, SameTask, SemanticsAt, Done, OthersSame;
    At(sc, states, turns, j);
    At(sc, states, turns, n);
    if n > j + 1 { At(sc, states, turns, j + 1); }
    TurnMoves(sc, states[j], turns[j]);
    FinishedTasksAreFrozen(sc, states, turns, j + 1, n);
  }

  /** In terms of the state: a finished task was the child's own doing iff its provenance says so. */
  lemma OwnDoingIff(sc: Scenario, states: seq<LifeState>, turns: seq<Turn>, j: nat, i: nat)
    requires sc.Valid() && RunFromStart(sc, states, turns) && j < |turns| && states[j].index == i < |sc.stages|
    requires Placed(sc, states[j + 1])
    ensures OwnDoing(sc, states, turns, j, i) <==>
            SourceAt(sc, states, turns, j) != StructuredJoint
              && DirectIn(sc, states[j + 1], i, SourceAt(sc, states, turns, j))
  {
    hide Scenario.Valid, Inv, Placed, Initial, NextState, SourceAt, PackOf, NotesOf, TaughtBefore, NoteSet;
    At(sc, states, turns, j);
    TurnMoves(sc, states[j], turns[j]);
    var st := sc.stages[i];
    var pack, n := PackOf(sc, states[j + 1], st), NotesOf(sc, states[j + 1], st);
    forall r ensures r in n.independent <==> r in NoteSet(pack) && TaughtBefore(sc, states, turns, j + 1, i, r) {
      CreditIsExact(sc, states, turns, j + 1, i, r);
    }
    AllTaughtIff(pack, n);
  }

  lemma AllTaughtIff(pack: TaskPack, n: NoteState)
    ensures AllTaught(pack, n) <==> forall r | r in NoteSet(pack) :: r in n.independent
  {}

  lemma TaskTaughtStays(sc: Scenario, states: seq<LifeState>, turns: seq<Turn>, n: nat, i: nat)
    requires RunFromStart(sc, states, turns) && n < |turns| && i < |sc.stages|
    ensures TaskTaught(sc, states, turns, n + 1, i) <==>
            TaskTaught(sc, states, turns, n, i) || (Finishes(sc, states, turns, n, i)
              && OwnDoing(sc, states, turns, n, i))
  {
    hide RunFromStart, Finishes, OwnDoing;
  }

  /** One more turn adds its task to those that must be taught, if it finished one. */
  lemma OneMoreTask(sc: Scenario, states: seq<LifeState>, turns: seq<Turn>, n: nat, i: nat, done: bool)
    requires RunFromStart(sc, states, turns) && n < |turns| && states[n].index == i < |sc.stages|
    requires !states[n].completed && !TaskTaught(sc, states, turns, n, i)
    requires forall k: nat :: Finished(states[n + 1], k) <==> Finished(states[n], k) || (done && k == i)
    requires forall k :: Finishes(sc, states, turns, n, k) <==> done && k == i
    ensures AllTaskTaught(sc, states, turns, n + 1) <==>
            AllTaskTaught(sc, states, turns, n) && (done ==> OwnDoing(sc, states, turns, n, i))
  {
    hide Placed, Runnable, NextState, Initial, Finishes, OwnDoing, TaskTaught;
    forall k: nat | k < |sc.stages|
      ensures TaskTaught(sc, states, turns, n + 1, k) <==>
              TaskTaught(sc, states, turns, n, k) || (done && k == i && OwnDoing(sc, states, turns, n, k))
    {
      TaskTaughtStays(sc, states, turns, n, k);
    }
    if AllTaskTaught(sc, states, turns, n) && (done ==> OwnDoing(sc, states, turns, n, i)) {
      forall k: nat {:trigger TaskTaught(sc, states, turns, n + 1, k)} | k < |sc.stages| && Finished(states[n + 1], k)
        ensures TaskTaught(sc, states, turns, n + 1, k) {
        assert Finished(states[n], k) ==> TaskTaught(sc, states, turns, n, k);
      }
    }
  }

  /** The scenario's credit is intact iff every finished task was the child's own doing. */
  lemma {:induction false} CreditFolds(sc: Scenario, states: seq<LifeState>, turns: seq<Turn>, n: nat)
    requires sc.Valid() && RunFromStart(sc, states, turns) && n <= |turns|
    ensures states[n].allDirect && !states[n].jointUsed <==> AllTaskTaught(sc, states, turns, n)
  {
    hide Scenario.Valid, Inv, Placed, Initial, NextState, SemanticsAt, Done, OthersSame, DirectIn, OwnDoing,
         TaskTaught, Runnable, PackOf, NotesOf, SourceAt;
    hide Finishes;
    if n == 0 {
      NothingFinishedYet(sc, states[0]);
    } else {
      CreditFolds(sc, states, turns, n - 1);
      At(sc, states, turns, n - 1);
      var s, t := states[n - 1], turns[n - 1];
      InvPlaced(sc, s);
      TurnMoves(sc, s, t);
      TurnCreditsScenario(sc, s, t);
      OwnDoingIff(sc, states, turns, n - 1, s.index);
      SourceIs(sc, states, turns, n - 1);
      OpenTaskUntaught(sc, states, turns, n - 1, s.index);
      assert forall k: nat :: Finished(states[n], k) <==>
             Finished(s, k) || (Done(SemanticsAt(sc, s, t)) && k == s.index);
      assert forall k: nat {:trigger Finishes(sc, states, turns, n - 1, k)} ::
             Finishes(sc, states, turns, n - 1, k) <==> Done(SemanticsAt(sc, s, t)) && k == s.index;
      OneMoreTask(sc, states, turns, n - 1, s.index, Done(SemanticsAt(sc, s, t)));
    }
  }

  lemma SourceIs(sc: Scenario, states: seq<LifeState>, turns: seq<Turn>, j: nat)
    requires RunFromStart(sc, states, turns) && j < |turns| && Placed(sc, states[j])
    requires NextState(sc, states[j], turns[j]).Ok?
    ensures SourceAt(sc, states, turns, j) == SemanticsAt(sc, states[j], turns[j]).source
    ensures forall i :: Finishes(sc, states, turns, j, i) <==>
            states[j].index == i && Done(SemanticsAt(sc, states[j], turns[j]))
  {
    hide RunFromStart, Placed, NextState, Done;
  }

  lemma NothingFinishedYet(sc: Scenario, s: LifeState)
    requires sc.Valid() && Runnable(sc) && Initial(sc) == Ok(s)
    ensures s.allDirect && !s.jointUsed && forall i: nat :: !Finished(s, i)
  {
    hide Scenario.Valid, Wired, EntriesOpen, QuestionBound, Start;
    ValidEntriesOpen(sc);
    InitialShape(sc);
  }

  /** The open task has not been finished before. */
  lemma OpenTaskUntaught(sc: Scenario, states: seq<LifeState>, turns: seq<Turn>, n: nat, i: nat)
    requires sc.Valid() && RunFromStart(sc, states, turns) && n < |turns| && states[n].index == i < |sc.stages|
    ensures !TaskTaught(sc, states, turns, n, i)
  {
    hide Scenario.Valid, RunFromStart, Finishes, OwnDoing;
    forall j: nat | j < n && Finishes(sc, states, turns, j, i) ensures false {
      FinishesOnce(sc, states, turns, j, n, i);
    }
  }

  /** A finished scenario is TAUGHT, and rewarded, iff every one of its tasks was the child's own doing. */
  lemma TaughtIff(sc: Scenario, states: seq<LifeState>, turns: seq<Turn>)
    requires sc.Valid() && RunFromStart(sc, states, turns) && states[|turns|].completed
    ensures var end := states[|turns|];
            var taught := forall i: nat | i < |sc.stages| :: TaskTaught(sc, states, turns, |turns|, i);
            && end.outcome == Some(if taught then Home.Taught else Home.Supported)
            && (end.reward <==> taught)
  {
    hide Scenario.Valid, Placed, TasksInv, Initial, NextState, TaskTaught, QuestionBound, LadderOk;
    CreditFolds(sc, states, turns, |turns|);
    RunKeepsInv(sc, states, turns, |turns|);
    assert forall i: nat | i < |sc.stages| :: Finished(states[|turns|], i);
  }
}
