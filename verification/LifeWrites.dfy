/** What the ledgers of a life conversation can hold, and which variants it can meet. */
module LifeWrites {
  import opened Common
  import opened Content
  import opened Ledgers
  import opened LedgerOperations
  import opened Ladders
  import opened Questions
  import opened Turns
  import opened WritableValues
  import opened LifeContent
  import opened LifeEngine
  import opened LifeTurns
  import opened LifeRuns

  /** Every verified fact has a value that can be written. */
  ghost predicate Written(pack: TaskPack, l: Ledger) {
    forall f | f in l.facts :: Writable(pack, f, l.facts[f].value)
  }

  ghost predicate TaskWritten(sc: Scenario, s: LifeState, i: nat)
    requires Placed(sc, s) && i < |sc.stages|
  {
    var st := sc.stages[i];
    Enterable(sc, i, PackOf(sc, s, st)) && Written(PackOf(sc, s, st), LedgerOf(sc, s, st))
  }

  /** Of every task reached so far: it can be met, and holds only values that can be written. */
  ghost predicate AllWritten(sc: Scenario, s: LifeState)
    requires Placed(sc, s)
  {
    forall i: nat {:trigger TaskWritten(sc, s, i)} | i <= s.index < |sc.stages| :: TaskWritten(sc, s, i)
  }

  // ----- the open task -----

  lemma SoundKeepsValues(pack: TaskPack, l: Ledger, a: Applied)
    requires Sound(pack, l, a)
    ensures forall f | f in l.facts :: f in a.Ledger().facts && a.Ledger().facts[f].value == l.facts[f].value
  {}

  lemma LedgerStaysWritten(pack: TaskPack, ladder: Ladder, subgoal: string, l: Ledger, t: Turn)
    requires pack.ValidQuestions() && (forall p | p in pack.l3Plans :: |p.targets| == 1)
    requires Usable(pack, l) && Asked(pack, ladder.expression, subgoal, l) && Written(pack, l)
    requires Interpret(pack, ladder, subgoal, l, t).Ok?
    ensures Written(pack, Interpret(pack, ladder, subgoal, l, t).value.applied.Ledger())
  {
    hide TaskPack.ValidQuestions, Interpret, Asked, Writable, Sound;
    InterpretIsSound(pack, ladder, subgoal, l, t);
    SoundKeepsValues(pack, l, Interpret(pack, ladder, subgoal, l, t).value.applied);
    var m := Interpret(pack, ladder, subgoal, l, t).value.applied.Ledger();
    forall f | f in m.facts ensures Writable(pack, f, m.facts[f].value) {
      TurnWrites(pack, ladder, subgoal, l, t, f);
    }
  }

  // ----- the variant entered -----

  /** The state in which the next variant is looked up: the turn absorbed and the task credited. */
  function Finishing(sc: Scenario, s: LifeState, sem: Semantics): (f: LifeState)
    requires Placed(sc, s)
    ensures Placed(sc, f)
  {
    Credited(sc, Absorb(sc, s, sem), sem.source)
  }

  lemma FinishingKeeps(sc: Scenario, s: LifeState, sem: Semantics, st: Stage)
    requires Placed(sc, s) && st in sc.stages
    ensures var f := Finishing(sc, s, sem);
            && f.index == s.index && PackOf(sc, f, st) == PackOf(sc, s, st)
            && (st != sc.stages[s.index] ==> LedgerOf(sc, f, st) == LedgerOf(sc, s, st))
            && (st == sc.stages[s.index] ==> LedgerOf(sc, f, st) == sem.applied.Ledger())
  {
    AbsorbFrame(sc, s, sem, st);
    AbsorbLeaves(sc, s, sem);
    CreditedLeaves(sc, Absorb(sc, s, sem), sem.source, st);
    hide Runnable, InUse, Absorb, Policy, Track, PackOf, LedgerOf, NotesOf, Tracked;
  }

  /** The task just entered has the variant that was looked up. */
  lemma EnteredVariant(sc: Scenario, s: LifeState, sem: Semantics)
    requires Placed(sc, s) && EntriesOpen(sc) && Done(sem) && s.index + 1 < |sc.stages| && Conclude(sc, s, sem).Ok?
    ensures var next := sc.stages[s.index + 1];
            var v := NextVariant(sc, Finishing(sc, s, sem));
            v.Some? && v.value in next.variants && PackOf(sc, Conclude(sc, s, sem).value, next)
              == next.variants[v.value]
  {
    hide Runnable, InUse, Current, CurrentNotes, CurrentLedger, Track, Emit, Policy, TaskDirect, QuestionBound,
         Absorb, Credited, MoveOn, Deliver, Conclude;
    hide CompleteTask, NextVariant, PackOf, LedgerOf, NotesOf, Tracked, EmptyLedger, CreditTurned;
    var m := Absorb(sc, s, sem);
    AbsorbLeaves(sc, s, sem);
    DoneIsDelivered(sc, s, sem);
    CreditedIs(sc, s, sem);
    var f := Finishing(sc, s, sem);
    MoveIs(sc, m, f, sem.source);
    var next := sc.stages[s.index + 1];
    var v := NextVariant(sc, f).value;
    var p := MoveOn(sc, f, v);
    MoveEnters(sc, f, v, next);
    EntersOpen(sc, next, v);
    DeliverFrame(sc, m, p, next);
  }

  lemma EntersOpen(sc: Scenario, st: Stage, v: string)
    requires EntriesOpen(sc) && st in sc.stages && v in st.variants
    ensures LadderOk(EntryLadder(st.variants[v]))
  {}

  /** What the lookup reads when the next stage has a selector. */
  lemma VariantRead(sc: Scenario, f: LifeState, j: nat)
    requires Placed(sc, f) && f.index + 1 < |sc.stages| && j <= f.index && Selects(sc, f.index + 1, j)
    ensures var next := sc.stages[f.index + 1];
            var sel := next.selector.value;
            NextVariant(sc, f) == LifeContent.Select(sc.show, sel, LedgerOf(sc, f, sc.stages[j]))
  {
    hide LifeContent.Select, OneTargetEach;
    assert InUse(f.active, sc.stages[j]);
  }

  lemma SelectorHasSource(sc: Scenario, k: nat) returns (j: nat)
    requires sc.Valid() && k < |sc.stages| && sc.stages[k].selector.Some?
    ensures j < k && Selects(sc, k, j)
    ensures forall v | v in sc.stages[j].variants ::
            sc.stages[k].selector.value.factId in sc.stages[j].variants[v].facts
  {
    hide LifeValid, Scenario.ValidProjection, Scenario.UniqueTasks;
    assert sc.ValidSelector(k);
    j :| 0 <= j < k && Feeds(sc.stages[j], sc.stages[k].selector.value);
  }

  /** A selection that succeeds leads to a pack that can be entered. */
  lemma SelectedIsEnterable(sc: Scenario, k: nat, j: nat, source: TaskPack, l: Ledger, v: string)
    requires j < k < |sc.stages| && Selects(sc, k, j) && Enterable(sc, j, source) && Written(source, l)
    requires LifeContent.Select(sc.show, sc.stages[k].selector.value, l) == Some(v) && v in sc.stages[k].variants
    ensures Enterable(sc, k, sc.stages[k].variants[v])
  {
    hide Writable, LookupKey;
    var sel := sc.stages[k].selector.value;
    var w := l.facts[sel.factId].value;
    assert Leads(sc.show, sel, w, sc.stages[k], sc.stages[k].variants[v]);
    assert Enterable(sc, j, source) && Writable(source, sel.factId, w);
  }

  lemma FinishingWritten(sc: Scenario, s: LifeState, sem: Semantics, j: nat)
    requires Placed(sc, s) && AllWritten(sc, s) && j <= s.index < |sc.stages|
    requires Written(PackOf(sc, s, sc.stages[s.index]), sem.applied.Ledger())
    ensures var f := Finishing(sc, s, sem);
            Enterable(sc, j, PackOf(sc, f, sc.stages[j]))
              && Written(PackOf(sc, f, sc.stages[j]), LedgerOf(sc, f, sc.stages[j]))
  {
    StageIndex(sc, j, s.index);
    hide Runnable, InUse, Finishing, PackOf, LedgerOf, Enterable, Written;
    FinishingKeeps(sc, s, sem, sc.stages[j]);
    assert TaskWritten(sc, s, j);
  }

  /** The task just entered is one that can be met. */
  lemma EnteredIsEnterable(sc: Scenario, s: LifeState, sem: Semantics)
    requires sc.Valid() && Placed(sc, s) && AllWritten(sc, s) && Done(sem) && s.index + 1 < |sc.stages|
    requires Conclude(sc, s, sem).Ok?
    requires Written(PackOf(sc, s, sc.stages[s.index]), sem.applied.Ledger())
    ensures Enterable(sc, s.index + 1, PackOf(sc, Conclude(sc, s, sem).value, sc.stages[s.index + 1]))
  {
    hide Scenario.Valid, Runnable, InUse, Conclude, PackOf, LedgerOf, AllWritten, Finishing, Written, Done, NextVariant,
         LifeContent.Select;
    ValidEntriesOpen(sc);
    EnteredVariant(sc, s, sem);
    var f := Finishing(sc, s, sem);
    var k := s.index + 1;
    FinishingKeeps(sc, s, sem, sc.stages[s.index]);
    var v := NextVariant(sc, f).value;
    if sc.stages[k].selector.Some? {
      var j := SelectorHasSource(sc, k);
      VariantRead(sc, f, j);
      FinishingWritten(sc, s, sem, j);
      SelectedIsEnterable(sc, k, j, PackOf(sc, f, sc.stages[j]), LedgerOf(sc, f, sc.stages[j]), v);
    } else {
      DefaultVariantIs(sc, f);
    }
  }

  lemma DefaultVariantIs(sc: Scenario, f: LifeState)
    requires Placed(sc, f) && f.index + 1 < |sc.stages| && sc.stages[f.index + 1].selector.None?
    ensures NextVariant(sc, f) == Some(sc.stages[f.index + 1].defaultVariant)
  {}

  // ----- every turn and every run -----

  lemma CurrentAsked(sc: Scenario, s: LifeState)
    requires sc.Valid() && Inv(sc, s) && !s.completed
    ensures Placed(sc, s) && s.index < |sc.stages|
    ensures Usable(Current(sc, s), CurrentLedger(sc, s))
    ensures Asked(Current(sc, s), s.ladder.expression, s.subgoal, CurrentLedger(sc, s))
    ensures Current(sc, s).ValidQuestions()
    ensures Current(sc, s) == PackOf(sc, s, sc.stages[s.index])
    ensures CurrentLedger(sc, s) == LedgerOf(sc, s, sc.stages[s.index])
  {
    hide Scenario.Valid, Runnable, InUse, TaskInv, LifeValid, Ask, NotesFit, HintFits, Usable, Complete;
    CurrentPresent(sc, s);
    PackIsValid(sc, s, sc.stages[s.index]);
    ValidAsks(Current(sc, s));
  }

  lemma ValidAsks(pack: TaskPack)
    requires LifeValid(pack)
    ensures pack.ValidQuestions()
  {}

  /** A turn of the open task writes nothing else. */
  lemma OpenStaysWritten(sc: Scenario, s: LifeState, t: Turn)
    requires sc.Valid() && Inv(sc, s) && Placed(sc, s) && AllWritten(sc, s) && !s.completed && NextState(sc, s, t).Ok?
    requires s.index < |sc.stages|
    ensures Written(PackOf(sc, s, sc.stages[s.index]), SemanticsAt(sc, s, t).applied.Ledger())
  {
    hide Scenario.Valid, Inv, Placed, Interpret, Conclude, Written, Usable, Asked, TaskPack.ValidQuestions, Current,
         CurrentLedger, PackOf, LedgerOf, Enterable;
    CurrentAsked(sc, s);
    assert TaskWritten(sc, s, s.index);
    LedgerStaysWritten(Current(sc, s), s.ladder, s.subgoal, CurrentLedger(sc, s), t);
  }

  lemma EmptyIsWritten(pack: TaskPack)
    ensures Written(pack, EmptyLedger(pack))
  {}

  lemma TaskStaysWritten(sc: Scenario, s: LifeState, n: LifeState, sem: Semantics, i: nat)
    requires sc.Valid() && Placed(sc, s) && AllWritten(sc, s) && n.index < |sc.stages| && i <= n.index
    requires Conclude(sc, s, sem) == Ok(n) && Placed(sc, n) && Advanced(sc, s, n, sem) && s.index < |sc.stages|
    requires Written(PackOf(sc, s, sc.stages[s.index]), sem.applied.Ledger())
    ensures TaskWritten(sc, n, i)
  {
    hide Scenario.Valid, Runnable, InUse, Conclude, PackOf, LedgerOf, NotesOf, Written, Enterable, Done, QuestionBound,
         CreditTurned, EntryLadder, EmptyLedger, Policy, Emit, Track, CurrentLedger, CurrentNotes;
    CurrentIsStage(sc, s);
    if i == s.index {
      assert TaskWritten(sc, s, i);
    } else if i == n.index {
      EnteredIsEnterable(sc, s, sem);
      EmptyIsWritten(PackOf(sc, n, sc.stages[i]));
    } else {
      assert TaskWritten(sc, s, i) && SameTask(sc, s, n, sc.stages[i]);
    }
  }

  lemma CurrentIsStage(sc: Scenario, s: LifeState)
    requires Placed(sc, s)
    ensures Current(sc, s) == PackOf(sc, s, sc.stages[s.index])
  {}

  lemma TurnKeepsWritten(sc: Scenario, s: LifeState, t: Turn)
    requires sc.Valid() && Inv(sc, s) && Placed(sc, s) && AllWritten(sc, s) && !s.completed && NextState(sc, s, t).Ok?
    ensures AllWritten(sc, NextState(sc, s, t).value)
  {
    hide Scenario.Valid, Inv, Placed, Interpret, Conclude, Written, Sound, Evidenced, PackOf, LedgerOf, TaskWritten,
         Advanced;
    TurnAdvances(sc, s, t);
    CurrentAsked(sc, s);
    OpenStaysWritten(sc, s, t);
    var n := NextState(sc, s, t).value;
    forall i: nat | i <= n.index < |sc.stages| ensures TaskWritten(sc, n, i) {
      TaskStaysWritten(sc, s, n, SemanticsAt(sc, s, t), i);
    }
  }

  lemma InitialIsWritten(sc: Scenario, s: LifeState)
    requires sc.Valid() && Runnable(sc) && Initial(sc) == Ok(s)
    ensures s.index == 0 && AllWritten(sc, s)
  {
    hide Scenario.Valid, Wired, InUse, Ask, EntriesOpen, QuestionBound, Present, Past;
    ValidEntriesOpen(sc);
    InitialShape(sc);
    FirstIsEnterable(sc, s);
    StartIsFresh(sc, 0);
    EmptyIsWritten(PackOf(sc, s, sc.stages[0]));
  }

  lemma FirstIsEnterable(sc: Scenario, s: LifeState)
    requires sc.Valid() && Runnable(sc) && Placed(sc, s) && s.active == Start(sc).active
    ensures Enterable(sc, 0, PackOf(sc, s, sc.stages[0]))
  {
    hide LifeValid, OneTargetEach;
    assert sc.ValidSelector(0);
    UniqueStages(sc);
    assert Wired(sc, sc.stages[0]);
    assert InUse(s.active, sc.stages[0]);
    assert FindStage(sc.stages, sc.stages[0].taskId) == Some(sc.stages[0]);
  }

  /** In every state of every conversation the tasks reached are ones that can be met, and their ledgers hold only
      values that can be written. */
  lemma {:induction false} RunKeepsWritten(sc: Scenario, states: seq<LifeState>, turns: seq<Turn>, n: nat)
    requires sc.Valid() && RunFromStart(sc, states, turns) && n < |states|
    ensures Placed(sc, states[n]) && AllWritten(sc, states[n])
  {
    hide Scenario.Valid, NextState, Inv, Initial, Placed, AllWritten;
    if n == 0 {
      InitialIsWritten(sc, states[0]);
    } else {
      RunKeepsWritten(sc, states, turns, n - 1);
      RunKeepsInv(sc, states, turns, n - 1);
      assert NextState(sc, states[n - 1], turns[n - 1]) == Ok(states[n]);
      TurnKeepsWritten(sc, states[n - 1], turns[n - 1]);
    }
  }
}
