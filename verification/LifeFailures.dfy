/** Scenarios that fail at run time: every task that can be met is met in some conversation, so a selector or a
    projection that is not sealed does fail one. */
module LifeFailures {
  import opened Common
  import opened Content
  import opened Ledgers
  import opened LedgerOperations
  import opened Ladders
  import opened Questions
  import opened Turns
  import opened Lessons
  import opened WritableValues
  import opened LifeContent
  import opened LifeEngine
  import opened LifeTurns
  import opened LifeRuns
  import opened LifeWrites
  import opened LifeCredit
  import opened LifeProgress
  import opened LifeScripts
  import opened Json
  import HomeRuns

  // ----- from task to task -----

  /** The pack of the task just entered is the one its selector finds in the earlier ledger. */
  ghost predicate Chosen(sc: Scenario, s: LifeState)
    requires Placed(sc, s)
  {
    forall j: nat | j < s.index < |sc.stages| && Selects(sc, s.index, j) ::
      ChosenBy(sc, sc.stages[s.index], LedgerOf(sc, s, sc.stages[j]), Current(sc, s))
  }

  ghost predicate ChosenBy(sc: Scenario, st: Stage, source: Ledger, pack: TaskPack)
    requires st.selector.Some?
  {
    var v := LifeContent.Select(sc.show, st.selector.value, source);
    v.Some? && v.value in st.variants && pack == st.variants[v.value]
  }

  /** A task just entered, after a task that was left with ledger `l`. */
  ghost predicate LeftFor(sc: Scenario, s: LifeState, l: Ledger, m: LifeState) {
    && Placed(sc, s) && Fresh(sc, m) && Chosen(sc, m) && m.index == s.index + 1 < |sc.stages| && SamePast(sc, s, m)
    && PackOf(sc, m, sc.stages[s.index]) == Current(sc, s) && LedgerOf(sc, m, sc.stages[s.index]) == l
  }

  lemma MovedAdvance(sc: Scenario, s: LifeState, n: LifeState, sem: Semantics)
    requires Placed(sc, s) && !s.completed && Advanced(sc, s, n, sem) && Done(sem) && s.index + 1 < |sc.stages|
    ensures Placed(sc, n) && !n.completed && n.index == s.index + 1 && SamePast(sc, s, n)
    ensures CurrentLedger(sc, n) == EmptyLedger(Current(sc, n)) && n.ladder == EntryLadder(Current(sc, n))
    ensures var st := sc.stages[s.index];
            PackOf(sc, n, st) == Current(sc, s) && LedgerOf(sc, n, st) == sem.applied.Ledger()
  {
    hide Runnable, InUse, Done, Policy, PackOf, LedgerOf, NotesOf, QuestionBound, CreditTurned, Tracked, Emit,
         EntryLadder, EmptyLedger, Current, CurrentLedger;
    CurrentIs(sc, n);
  }

  /** What the lookup for the next task reads of the tasks so far. */
  lemma MovedIsChosen(sc: Scenario, s: LifeState, sem: Semantics, n: LifeState)
    requires sc.Valid() && Placed(sc, s) && Done(sem) && s.index + 1 < |sc.stages| && Conclude(sc, s, sem) == Ok(n)
    requires Placed(sc, n) && n.index == s.index + 1 && SamePast(sc, s, n)
    requires LedgerOf(sc, n, sc.stages[s.index]) == sem.applied.Ledger()
    ensures Chosen(sc, n)
  {
    hide Scenario.Valid, Runnable, InUse, Conclude, PackOf, LedgerOf, NotesOf, Finishing, Done, NextVariant, Current,
         LifeContent.Select;
    ValidEntriesOpen(sc);
    EnteredVariant(sc, s, sem);
    CurrentIs(sc, n);
    var f := Finishing(sc, s, sem);
    FinishingKeeps(sc, s, sem, sc.stages[s.index]);
    forall j: nat | j < n.index && Selects(sc, n.index, j)
      ensures ChosenBy(sc, sc.stages[n.index], LedgerOf(sc, n, sc.stages[j]), Current(sc, n))
    {
      VariantRead(sc, f, j);
      FinishingKeeps(sc, s, sem, sc.stages[j]);
      StageIndex(sc, j, s.index);
      if j < s.index { assert SameTask(sc, s, n, sc.stages[j]); }
    }
  }

  /** Finishing a task before the last leads to the next one, unless the lookup fails and the turn with it. */
  lemma FinishStep(sc: Scenario, s: LifeState, t: Turn) returns (n: LifeState)
    requires sc.Valid() && Asking(sc) && Live(sc, s) && s.index + 1 < |sc.stages| && Completes(sc, s, t)
    ensures CanFail(sc, SelectorFailed) || LeftFor(sc, s, LedgerAfter(sc, s, t), n)
  {
    hide Scenario.Valid, Asking, Runnable, InUse, Reached, Inv, AllWritten, Current, CurrentLedger, Interpret, Conclude,
         Finishing, Done, NextVariant, Sound, Evidenced, PackOf, LedgerOf, SameTask, Advanced, Chosen, EmptyLedger,
         EntryLadder;
    ReachedIsGood(sc, s);
    var sem := InterpretLife(sc, s, t).value;
    MoveOutcome(sc, s, sem);
    if Conclude(sc, s, sem).Ok? {
      n := Conclude(sc, s, sem).value;
      ReachedStep(sc, s, t);
      TurnAdvances(sc, s, t);
      MovedAdvance(sc, s, n, sem);
      MovedIsChosen(sc, s, sem, n);
    } else {
      assert NextState(sc, s, t) == Err(SelectorFailed);
      n := s;
    }
  }

  /** A lookup that finds nothing fails the turn. */
  lemma LookupFails(sc: Scenario, s: LifeState, t: Turn, j: nat)
    requires sc.Valid() && Asking(sc) && Live(sc, s) && s.index + 1 < |sc.stages| && Completes(sc, s, t)
    requires j <= s.index && Selects(sc, s.index + 1, j)
    requires var source := if j == s.index then LedgerAfter(sc, s, t) else LedgerOf(sc, s, sc.stages[j]);
             LifeContent.Select(sc.show, sc.stages[s.index + 1].selector.value, source).None?
    ensures CanFail(sc, SelectorFailed)
  {
    hide Scenario.Valid, Asking, Runnable, InUse, Reached, Current, CurrentLedger, Interpret, Conclude, Finishing, Done,
         NextVariant, PackOf, LedgerOf, LifeContent.Select;
    var sem := InterpretLife(sc, s, t).value;
    MoveOutcome(sc, s, sem);
    FinishingKeeps(sc, s, sem, sc.stages[j]);
    StageIndex(sc, j, s.index);
    VariantRead(sc, Finishing(sc, s, sem), j);
    assert NextState(sc, s, t) == Err(SelectorFailed);
  }

  /** The plain lesson of all required targets finishes any task. */
  lemma PlainLesson(sc: Scenario, s: LifeState) returns (t: Turn)
    requires sc.Valid() && Asking(sc) && Live(sc, s)
    ensures Completes(sc, s, t)
    ensures Teaches(Current(sc, s), CurrentLedger(sc, s), AllOthers(Current(sc, s), {}), LedgerAfter(sc, s, t))
    ensures Current(sc, s).ValidCompletion()
  {
    hide Scenario.Valid, Asking, Placed, Reached, Inv, AllWritten, Current, CurrentLedger, LifeValid, Askable, Asked,
         Usable, Complete, AllOthers, Teaches, TaskPack.Known, TaskPack.Required;
    LivePack(sc, s);
    ValidParts(Current(sc, s));
    AllOthersAre(Current(sc, s), {});
    t := FullLesson(sc, s, AllOthers(Current(sc, s), {}));
  }

  lemma FreshIsLive(sc: Scenario, s: LifeState)
    requires Fresh(sc, s)
    ensures Live(sc, s) && Placed(sc, s)
  {}

  lemma PastOn(sc: Scenario, s: LifeState, m: LifeState, n: LifeState)
    requires Placed(sc, s) && Placed(sc, m) && Placed(sc, n) && s.index <= m.index && SamePast(sc, s, m)
    requires SamePast(sc, m, n)
    ensures SamePast(sc, s, n)
  {
    hide Placed, PackOf, LedgerOf, NotesOf;
    forall i: nat | i < s.index && i < |sc.stages| ensures SameTask(sc, s, n, sc.stages[i]) {
      assert SameTask(sc, s, m, sc.stages[i]) && SameTask(sc, m, n, sc.stages[i]);
    }
  }

  /** Plain lessons lead on to task `k`, unless a lookup fails on the way. */
  lemma {:induction false} Along(sc: Scenario, s: LifeState, k: nat) returns (n: LifeState)
    requires sc.Valid() && Asking(sc) && Fresh(sc, s) && Chosen(sc, s) && s.index <= k < |sc.stages|
    ensures CanFail(sc, SelectorFailed) || (Fresh(sc, n) && Chosen(sc, n) && n.index == k && SamePast(sc, s, n))
    decreases k - s.index
  {
    hide Scenario.Valid, Asking, Placed, Chosen, SameTask, Current, CurrentLedger, PackOf, LedgerOf, CanFail, Completes,
         Teaches, Live;
    FreshIsLive(sc, s);
    if s.index == k {
      n := s;
      SamePastSelf(sc, s);
    } else {
      var t := PlainLesson(sc, s);
      var m := FinishStep(sc, s, t);
      if CanFail(sc, SelectorFailed) {
        n := s;
      } else {
        n := Along(sc, m, k);
        if !CanFail(sc, SelectorFailed) {
          FreshIsLive(sc, m);
          FreshIsLive(sc, n);
          PastOn(sc, s, m, n);
        }
      }
    }
  }

  // ----- a scenario fails iff it is not sealed -----

  lemma InitialIsFresh(sc: Scenario) returns (s: LifeState)
    requires sc.Valid() && Asking(sc)
    ensures Fresh(sc, s) && Chosen(sc, s) && s.index == 0
  {
    ValidIsRunnable(sc);
    hide Scenario.Valid, Asking, Wired, InUse, Ask, EntriesOpen, QuestionBound, Askable, LifeValid;
    ValidEntriesOpen(sc);
    var start := Start(sc);
    StartIsFresh(sc, 0);
    CurrentIs(sc, start);
    EnteredAsks(sc, start);
    InitialShape(sc);
    s := Initial(sc).value;
    InitialIsReached(sc, s);
    SameMaps(sc, start, s, sc.stages[0]);
    CurrentIs(sc, s);
    StartLadder(sc);
  }

  lemma StartLadder(sc: Scenario)
    requires Runnable(sc)
    ensures Start(sc).ladder == EntryLadder(Current(sc, Start(sc)))
  {
    UniqueStages(sc);
    assert Wired(sc, sc.stages[0]);
    assert InUse(Start(sc).active, sc.stages[0]);
    assert FindStage(sc.stages, sc.stages[0].taskId) == Some(sc.stages[0]);
    hide OneTargetEach, EntryLadder, EmptyLedger;
  }

  lemma InitialIsReached(sc: Scenario, s: LifeState)
    requires Runnable(sc) && Initial(sc) == Ok(s)
    ensures Reached(sc, s)
  {
    hide Placed, Initial, NextState;
    assert RunFromStart(sc, [s], []);
    assert [s][0] == s;
  }

  /** Leaving a task with a given value for a fact. */
  lemma LeaveWith(sc: Scenario, s: LifeState, f: string, v: Value) returns (n: LifeState)
    requires sc.Valid() && Asking(sc) && Fresh(sc, s) && s.index + 1 < |sc.stages| && Writable(Current(sc, s), f, v)
    ensures CanFail(sc, SelectorFailed) || (Fresh(sc, n) && Chosen(sc, n) && n.index == s.index + 1
            && HoldsValue(sc, n, s.index, f, v))
  {
    hide Scenario.Valid, Asking, Placed, Reached, Chosen, SameTask, Current, CurrentLedger, PackOf, LedgerOf, CanFail,
         Completes, Writable, Fresh, SamePast;
    var m, t := EveryValueIsWritten(sc, s, f, v);
    n := FinishStep(sc, m, t);
  }

  ghost predicate HoldsValue(sc: Scenario, s: LifeState, j: nat, f: string, v: Value)
    requires Placed(sc, s) && j < |sc.stages|
  {
    var l := LedgerOf(sc, s, sc.stages[j]);
    f in l.facts && l.facts[f].value == v
  }

  lemma ValueStays(sc: Scenario, s: LifeState, n: LifeState, j: nat, f: string, v: Value)
    requires Placed(sc, s) && Placed(sc, n) && SamePast(sc, s, n) && j < s.index < |sc.stages|
    requires HoldsValue(sc, s, j, f, v)
    ensures HoldsValue(sc, n, j, f, v)
  {
    hide Placed, PackOf, LedgerOf, NotesOf;
    assert SameTask(sc, s, n, sc.stages[j]);
  }

  /** The task found for the value its source holds. */
  lemma ValueLeads(sc: Scenario, n: LifeState, j: nat, v: Value, pack: TaskPack)
    requires Placed(sc, n) && Chosen(sc, n) && j < n.index < |sc.stages| && Selects(sc, n.index, j)
    requires HoldsValue(sc, n, j, sc.stages[n.index].selector.value.factId, v)
    requires Leads(sc.show, sc.stages[n.index].selector.value, v, sc.stages[n.index], pack)
    ensures Current(sc, n) == pack
  {
    hide Runnable, InUse, Current, LedgerOf, LookupKey;
    assert ChosenBy(sc, sc.stages[n.index], LedgerOf(sc, n, sc.stages[j]), Current(sc, n));
  }

  lemma DefaultIsEntered(sc: Scenario, s: LifeState)
    requires sc.Valid() && Live(sc, s) && s.index < |sc.stages| && sc.stages[s.index].selector.None?
    ensures sc.stages[s.index].defaultVariant in sc.stages[s.index].variants
    ensures Current(sc, s) == sc.stages[s.index].variants[sc.stages[s.index].defaultVariant]
  {
    hide Scenario.Valid, Placed, Reached, Inv, PackOf, LedgerOf, Written;
    ReachedIsGood(sc, s);
    CurrentIs(sc, s);
    assert TaskWritten(sc, s, s.index);
  }

  /** Every task pack that can be met is met in some conversation, unless a lookup fails in one. */
  lemma {:induction false} EveryPackIsMet(sc: Scenario, i: nat, pack: TaskPack) returns (s: LifeState)
    requires sc.Valid() && Asking(sc) && i < |sc.stages| && Enterable(sc, i, pack)
    ensures CanFail(sc, SelectorFailed) || (Fresh(sc, s) && s.index == i && Current(sc, s) == pack)
    decreases i
  {
    hide Scenario.Valid, Asking, Placed, Reached, Chosen, SamePast, Current, CanFail, Writable, Live, Leads, HoldsValue;
    match sc.stages[i].selector {
      case None =>
        var start := InitialIsFresh(sc);
        s := Along(sc, start, i);
        if !CanFail(sc, SelectorFailed) {
          FreshIsLive(sc, s);
          DefaultIsEntered(sc, s);
        }
      case Some(sel) =>
        var j: nat, source, v :|
          && j < i && sc.stages[j].taskId == sel.sourceTask && Enterable(sc, j, source)
          && Writable(source, sel.factId, v) && Leads(sc.show, sel, v, sc.stages[i], pack);
        s := EveryPackIsMet(sc, j, source);
        if !CanFail(sc, SelectorFailed) {
          var m := LeaveWith(sc, s, sel.factId, v);
          if !CanFail(sc, SelectorFailed) {
            s := Along(sc, m, i);
            if !CanFail(sc, SelectorFailed) {
              FreshIsLive(sc, m);
              FreshIsLive(sc, s);
              ValueStays(sc, m, s, j, sel.factId, v);
              ValueLeads(sc, s, j, v, pack);
            }
          }
        }
    }
  }

  /** A task left with a ledger in which a later selector finds nothing. */
  lemma LaterLookupFails(sc: Scenario, s: LifeState, t: Turn, k: nat)
    requires sc.Valid() && Asking(sc) && Live(sc, s) && Completes(sc, s, t) && s.index < k < |sc.stages|
    requires Selects(sc, k, s.index)
    requires LifeContent.Select(sc.show, sc.stages[k].selector.value, LedgerAfter(sc, s, t)).None?
    ensures CanFail(sc, SelectorFailed)
  {
    hide Scenario.Valid, Asking, Placed, Reached, Chosen, Current, CurrentLedger, PackOf, LedgerOf, NotesOf, CanFail,
         Completes, Teaches, LifeContent.Select, LedgerAfter, Live;
    LiveIsPlaced(sc, s);
    if k == s.index + 1 {
      LookupFails(sc, s, t, s.index);
    } else {
      var m := FinishStep(sc, s, t);
      if !CanFail(sc, SelectorFailed) {
        FreshIsLive(sc, m);
        var n := Along(sc, m, k - 1);
        if !CanFail(sc, SelectorFailed) {
          FreshIsLive(sc, n);
          assert SameTask(sc, m, n, sc.stages[s.index]);
          var last := PlainLesson(sc, n);
          LookupFails(sc, n, last, s.index);
        }
      }
    }
  }

  lemma LiveIsPlaced(sc: Scenario, s: LifeState)
    requires Live(sc, s)
    ensures Placed(sc, s)
  {}

  lemma PlainLeaves(pack: TaskPack, l: Ledger, m: Ledger)
    requires pack.ValidCompletion() && l == EmptyLedger(pack) && Teaches(pack, l, AllOthers(pack, {}), m)
    ensures forall f :: f in m.facts <==> f in pack.requiredFacts
    ensures forall r :: r in m.relations <==> r in pack.requiredRelations
  {
    AllOthersAre(pack, {});
    forall f ensures f in m.facts <==> f in pack.requiredFacts {
      TaughtFact(pack, l, AllOthers(pack, {}), m, f);
      assert f in pack.requiredFacts <==> TargetKey(FactTarget, f) in pack.Required();
    }
    forall r ensures r in m.relations <==> r in pack.requiredRelations {
      assert r in m.relations <==> TargetKey(RelationTarget, r) in Verified(m);
      assert r in pack.requiredRelations <==> TargetKey(RelationTarget, r) in pack.Required();
    }
  }

  /** A selector that is not sealed fails some conversation. */
  lemma UnsealedSelectorFails(sc: Scenario, k: nat, j: nat, pack: TaskPack)
    requires sc.Valid() && Asking(sc) && j < k < |sc.stages| && Selects(sc, k, j) && Enterable(sc, j, pack)
    requires !SelectorSealed(sc.show, sc.stages[k].selector.value, pack)
    ensures CanFail(sc, SelectorFailed)
  {
    hide Scenario.Valid, Asking, Placed, Reached, Current, CurrentLedger, CanFail, Writable, Live, Enterable, Stays,
         Teaches, LedgerAfter, Interpret, Done, EmptyLedger, LookupKey;
    var sel := sc.stages[k].selector.value;
    var s := EveryPackIsMet(sc, j, pack);
    if !CanFail(sc, SelectorFailed) {
      FreshIsLive(sc, s);
      if sel.factId in pack.requiredFacts {
        var v :| Writable(pack, sel.factId, v) && LookupKey(sc.show, v) !in sel.variants;
        var n, t := EveryValueIsWritten(sc, s, sel.factId, v);
        StaysLive(sc, s, n);
        LaterLookupFails(sc, n, t, k);
      } else {
        var t := PlainLesson(sc, s);
        PlainLeaves(pack, CurrentLedger(sc, s), LedgerAfter(sc, s, t));
        LaterLookupFails(sc, s, t, k);
      }
    }
  }

  lemma OpenNeverMisses(sc: Scenario, s: LifeState, sem: Semantics)
    requires Placed(sc, s) && !Done(sem) && Conclude(sc, s, sem).Err?
    ensures Conclude(sc, s, sem).error.TurnFailed?
  {
    hide Placed, Absorb, Ask, SpeechFailure, CompleteTask, Deliver, Current, CurrentLedger;
  }

  /** Where a turn that misses a variant or a reported fact is taken. */
  lemma MissedWhere(sc: Scenario, s: LifeState, t: Turn)
    requires sc.Valid() && Asking(sc) && Live(sc, s) && NextState(sc, s, t).Err?
    requires !NextState(sc, s, t).error.TurnFailed?
    ensures s.index < |sc.stages| && InterpretLife(sc, s, t).Ok? && Done(InterpretLife(sc, s, t).value)
    ensures NextState(sc, s, t) == Conclude(sc, s, InterpretLife(sc, s, t).value)
    ensures NextState(sc, s, t).error == (if s.index + 1 == |sc.stages| then ProjectionFailed else SelectorFailed)
  {
    hide Scenario.Valid, Asking, Runnable, InUse, Reached, Inv, AllWritten, Interpret, Conclude, Done, Finishing,
         Reporting, FactsOf, NextVariant;
    ReachedIsGood(sc, s);
    var sem := InterpretLife(sc, s, t).value;
    if !Done(sem) {
      OpenNeverMisses(sc, s, sem);
    } else if s.index + 1 == |sc.stages| {
      EndOutcome(sc, s, sem);
    } else {
      MoveOutcome(sc, s, sem);
    }
  }

  lemma SealedSelectorsNeverFail(sc: Scenario, s: LifeState, t: Turn)
    requires sc.Valid() && Asking(sc) && SelectorsSealed(sc) && Live(sc, s)
    ensures NextState(sc, s, t) != Err(SelectorFailed)
  {
    hide Scenario.Valid, Asking, SelectorsSealed, Reached, Runnable, InUse, Inv, AllWritten, NextState, Interpret,
         Conclude, Done, Written, Sound, Current, CurrentLedger;
    if NextState(sc, s, t) == Err(SelectorFailed) {
      ReachedIsGood(sc, s);
      MissedWhere(sc, s, t);
      InterpretedWritten(sc, s, t);
      MoveSucceeds(sc, s, InterpretLife(sc, s, t).value);
    }
  }

  lemma SealedProjectionsNeverFail(sc: Scenario, s: LifeState, t: Turn)
    requires sc.Valid() && Asking(sc) && ProjectionsSealed(sc) && Live(sc, s)
    ensures NextState(sc, s, t) != Err(ProjectionFailed)
  {
    hide Scenario.Valid, Asking, ProjectionsSealed, Reached, Runnable, InUse, Inv, AllWritten, NextState, Interpret,
         Conclude, Done, Written, Sound, Current, CurrentLedger;
    if NextState(sc, s, t) == Err(ProjectionFailed) {
      ReachedIsGood(sc, s);
      MissedWhere(sc, s, t);
      InterpretedWritten(sc, s, t);
      EndSucceeds(sc, s, InterpretLife(sc, s, t).value);
    }
  }

  /** A scenario whose questions can be put fails some turn of some conversation for want of a variant iff one of its
      selectors is not sealed: the fact it reads is not required, or a value that can be written is not mapped, in a
      task that can be met. */
  lemma SelectorCanFailIff(sc: Scenario)
    requires sc.Valid() && Asking(sc)
    ensures CanFail(sc, SelectorFailed) <==> !SelectorsSealed(sc)
  {
    hide Scenario.Valid, Asking, Placed, Reached, NextState, SelectorSealed, Enterable;
    if SelectorsSealed(sc) {
      if CanFail(sc, SelectorFailed) {
        var s, t :| Placed(sc, s) && Reached(sc, s) && !s.completed && NextState(sc, s, t) == Err(SelectorFailed);
        SealedSelectorsNeverFail(sc, s, t);
      }
    } else {
      var k: nat, j: nat, pack :| j < k < |sc.stages| && Selects(sc, k, j) && Enterable(sc, j, pack)
                                  && !SelectorSealed(sc.show, sc.stages[k].selector.value, pack);
      UnsealedSelectorFails(sc, k, j, pack);
    }
  }

  lemma {:induction false} FactsMissing(sc: Scenario, s: LifeState, ps: seq<Projection>, p: Projection)
    requires Placed(sc, s) && p in ps && ProjectIn(sc, s, p).None?
    ensures FactsOf(sc, s, ps).None?
  {
    hide Placed, ProjectIn;
    var front := ps[..|ps| - 1];
    assert ps == front + [ps[|ps| - 1]];
    if p in front {
      FactsMissing(sc, s, front, p);
    }
  }

  lemma ReportOfStage(sc: Scenario, s: LifeState, i: nat, p: Projection)
    requires Placed(sc, s) && i < |sc.stages| && sc.stages[i].taskId == p.task
    ensures ProjectIn(sc, s, p) == Project(PackOf(sc, s, sc.stages[i]), LedgerOf(sc, s, sc.stages[i]), p)
  {
    UniqueStages(sc);
    hide Project;
    assert InUse(s.active, sc.stages[i]);
  }

  /** Finishing the last task fails when a task was left without something the report needs. */
  lemma ReportFails(sc: Scenario, s: LifeState, t: Turn, i: nat, p: Projection)
    requires sc.Valid() && Live(sc, s) && s.index + 1 == |sc.stages| && Completes(sc, s, t)
    requires p in sc.projections && i < |sc.stages| && sc.stages[i].taskId == p.task
    requires var l := if i == s.index then LedgerAfter(sc, s, t) else LedgerOf(sc, s, sc.stages[i]);
             Project(PackOf(sc, s, sc.stages[i]), l, p).None?
    ensures CanFail(sc, ProjectionFailed)
  {
    hide Scenario.Valid, Runnable, InUse, Reached, Interpret, Conclude, Done, Finishing, Reporting, FactsOf, ProjectIn,
         Project, PackOf, LedgerOf;
    var sem := InterpretLife(sc, s, t).value;
    EndOutcome(sc, s, sem);
    FinishingKeeps(sc, s, sem, sc.stages[i]);
    StageIndex(sc, i, s.index);
    ReportingKeeps(sc, s, sem);
    SameDone(sc, Finishing(sc, s, sem), Reporting(sc, s, sem), i);
    ReportOfStage(sc, Reporting(sc, s, sem), i, p);
    FactsMissing(sc, Reporting(sc, s, sem), sc.projections, p);
    assert NextState(sc, s, t) == Err(ProjectionFailed);
  }

  /** A projection that is not covered fails some conversation. */
  lemma UncoveredProjectionFails(sc: Scenario, i: nat, p: Projection, pack: TaskPack)
    requires sc.Valid() && Asking(sc) && p in sc.projections && i < |sc.stages| && sc.stages[i].taskId == p.task
    requires Enterable(sc, i, pack) && !Covered(pack, p)
    ensures CanFail(sc, SelectorFailed) || CanFail(sc, ProjectionFailed)
  {
    hide Scenario.Valid, Asking, Placed, Reached, Current, CurrentLedger, CanFail, Live, Enterable, Teaches,
         LedgerAfter, Interpret, Done, EmptyLedger, PackOf, LedgerOf, NotesOf;
    var s := EveryPackIsMet(sc, i, pack);
    if !CanFail(sc, SelectorFailed) {
      FreshIsLive(sc, s);
      CurrentIs(sc, s);
      var t := PlainLesson(sc, s);
      PlainLeaves(pack, CurrentLedger(sc, s), LedgerAfter(sc, s, t));
      assert Project(pack, LedgerAfter(sc, s, t), p).None?;
      if i + 1 == |sc.stages| {
        ReportFails(sc, s, t, i, p);
      } else {
        LaterReportFails(sc, s, t, i, p);
      }
    }
  }

  lemma LaterReportFails(sc: Scenario, s: LifeState, t: Turn, i: nat, p: Projection)
    requires sc.Valid() && Asking(sc) && Live(sc, s) && s.index == i && i + 1 < |sc.stages| && Completes(sc, s, t)
    requires p in sc.projections && sc.stages[i].taskId == p.task
    requires Project(Current(sc, s), LedgerAfter(sc, s, t), p).None?
    ensures CanFail(sc, SelectorFailed) || CanFail(sc, ProjectionFailed)
  {
    hide Scenario.Valid, Asking, Placed, Reached, Current, CurrentLedger, CanFail, Live, Teaches, LedgerAfter,
         Completes, EmptyLedger, PackOf, LedgerOf, NotesOf, Project, Chosen;
    LiveIsPlaced(sc, s);
    var m := FinishStep(sc, s, t);
    if !CanFail(sc, SelectorFailed) {
      FreshIsLive(sc, m);
      var n := Along(sc, m, |sc.stages| - 1);
      if !CanFail(sc, SelectorFailed) {
        FreshIsLive(sc, n);
        assert SameTask(sc, m, n, sc.stages[i]);
        var last := PlainLesson(sc, n);
        ReportFails(sc, n, last, i, p);
      }
    }
  }

  /** With its selectors sealed, a scenario fails some conversation at its report iff a projection is not covered in a
      task that can be met. */
  lemma ProjectionCanFailIff(sc: Scenario)
    requires sc.Valid() && Asking(sc) && SelectorsSealed(sc)
    ensures CanFail(sc, ProjectionFailed) <==> !ProjectionsSealed(sc)
  {
    hide Scenario.Valid, Asking, Placed, Reached, NextState, SelectorsSealed, Covered, Enterable;
    SelectorCanFailIff(sc);
    if ProjectionsSealed(sc) {
      if CanFail(sc, ProjectionFailed) {
        var s, t :| Placed(sc, s) && Reached(sc, s) && !s.completed && NextState(sc, s, t) == Err(ProjectionFailed);
        SealedProjectionsNeverFail(sc, s, t);
      }
    } else {
      var p, i: nat, pack :| p in sc.projections && i < |sc.stages| && sc.stages[i].taskId == p.task
        && Enterable(sc, i, pack)
                             && !Covered(pack, p);
      UncoveredProjectionFails(sc, i, p, pack);
    }
  }

  /** A scenario whose questions can be put never misses a variant or a reported fact iff it is sealed. */
  lemma NothingMissingIffSealed(sc: Scenario)
    requires sc.Valid() && Asking(sc)
    ensures !CanFail(sc, SelectorFailed) && !CanFail(sc, ProjectionFailed) <==> Sealed(sc)
  {
    hide Scenario.Valid, Asking, CanFail, SelectorsSealed, ProjectionsSealed;
    SelectorCanFailIff(sc);
    if SelectorsSealed(sc) { ProjectionCanFailIff(sc); }
  }

  /** A sealed scenario can be finished: plain lessons lead from its start to its end. */
  lemma SealedCanFinish(sc: Scenario) returns (s: LifeState)
    requires sc.Valid() && Sealed(sc)
    ensures Placed(sc, s) && Reached(sc, s) && s.completed
  {
    hide Scenario.Valid, Asking, Placed, Reached, CanFail, SelectorsSealed, ProjectionsSealed, NextState, Interpret,
         Conclude, Chosen, Current, CurrentLedger, Done, Written, Sound, Inv, AllWritten, Teaches;
    NothingMissingIffSealed(sc);
    var start := InitialIsFresh(sc);
    FreshIsLive(sc, start);
    ReachedIsGood(sc, start);
    var n := Along(sc, start, |sc.stages| - 1);
    FreshIsLive(sc, n);
    ReachedIsGood(sc, n);
    var t := PlainLesson(sc, n);
    InterpretedWritten(sc, n, t);
    EndSucceeds(sc, n, InterpretLife(sc, n, t).value);
    ConcludesNext(sc, n, t);
    s := NextState(sc, n, t).value;
    ReachedStep(sc, n, t);
    TurnMoves(sc, n, t);
    ReachedIsGood(sc, s);
  }

  lemma ConcludesNext(sc: Scenario, s: LifeState, t: Turn)
    requires Placed(sc, s) && InterpretLife(sc, s, t).Ok?
    ensures NextState(sc, s, t) == Conclude(sc, s, InterpretLife(sc, s, t).value)
  {
    hide Placed, Interpret, Conclude;
  }
}
