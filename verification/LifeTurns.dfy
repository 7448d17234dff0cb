/** What one turn of a life conversation does: to the task it is taken in, to the other tasks, and to the credit. */
module LifeTurns {
  import opened Common
  import opened Content
  import opened Ledgers
  import opened LedgerOperations
  import opened Ladders
  import opened Questions
  import opened Turns
  import opened LifeContent
  import opened LifeEngine
  import opened Json
  import Home = HomeEngine
  import HomeRuns

  function NoteSet(pack: TaskPack): set<string> { Elements(pack.noteRelations) }

  // ----- one task -----

  /** Provenance of a task: every verified note relation is attributed once, to the child or to the support, and the
      child's with ids of evidence in the task's own ledger. */
  ghost predicate NotesFit(pack: TaskPack, l: Ledger, n: NoteState) {
    && n.independent.Keys <= NoteSet(pack) && n.supported <= NoteSet(pack)
    && n.independent.Keys !! n.supported
    && n.independent.Keys <= l.relations.Keys
    && NoteSet(pack) * l.relations.Keys <= n.independent.Keys + n.supported
    && (forall r | r in n.independent :: Points(n.independent[r], l, r))
    && (n.emitted.Some? ==> pack.noteRelations != [])
  }

  ghost predicate Points(ids: seq<EvidenceId>, l: Ledger, r: string) {
    r in l.relations && ids != [] && Unique(ids) && Elements(ids) <= Ids(l.relations[r])
  }

  /** Below H2 nothing is attributed to support ahead of its verification. */
  ghost predicate HintFits(hint: HintLevel, l: Ledger, n: NoteState) {
    hint in {H0, H1} ==> n.supported <= l.relations.Keys
  }

  ghost predicate TaskFits(pack: TaskPack, l: Ledger, n: NoteState) {
    Usable(pack, l) && NotesFit(pack, l, n)
  }

  lemma FreshTaskFits(pack: TaskPack)
    requires LifeValid(pack)
    ensures TaskFits(pack, EmptyLedger(pack), FRESH_NOTES) && !Complete(pack, EmptyLedger(pack))
  {
    HomeRuns.EmptyLedgerIsOpen(pack);
    hide LifeValid, Complete, Usable;
  }

  /** The facts about a turn's touched relations that attribution rests on. */
  lemma TouchedRelations(pack: TaskPack, l: Ledger, sem: Semantics)
    requires Sound(pack, l, sem.applied) && Evidenced(l, sem.applied.progress)
    ensures var m := sem.applied.Ledger();
            var touched := Touched(pack.noteRelations, sem);
            && l.relations.Keys <= m.relations.Keys
            && touched <= NoteSet(pack) && touched <= m.relations.Keys
            && NoteSet(pack) * (m.relations.Keys - l.relations.Keys) <= touched
  {}

  lemma PointsStay(pack: TaskPack, l: Ledger, a: Applied, ids: seq<EvidenceId>, r: string)
    requires Sound(pack, l, a) && Points(ids, l, r)
    ensures Points(ids, a.Ledger(), r)
  {}

  lemma NewPoints(sem: Semantics, r: string)
    requires TurnEvidence(sem, r) != []
    ensures Points(Dedup(TurnEvidence(sem, r)), sem.applied.Ledger(), r)
  {}

  lemma TrackPoints(pack: TaskPack, l: Ledger, n: NoteState, sem: Semantics, before: HintLevel, after: HintLevel,
      r: string)
    requires Sound(pack, l, sem.applied) && NotesFit(pack, l, n)
    ensures var t := Track(pack, n, sem, before, after);
            r in t.independent ==> Points(t.independent[r], sem.applied.Ledger(), r)
  {
    hide Sound, TurnEvidence, Home.Unresolved, Dedup, Points;
    if r in n.independent {
      PointsStay(pack, l, sem.applied, n.independent[r], r);
    }
    if TurnEvidence(sem, r) != [] {
      NewPoints(sem, r);
    }
  }

  /** Which note relations a turn leaves attributed, and to whom. */
  lemma TrackKeys(pack: TaskPack, n: NoteState, sem: Semantics, before: HintLevel, after: HintLevel)
    ensures var t := Track(pack, n, sem, before, after);
            var touched := Touched(pack.noteRelations, sem);
            var direct := Home.DirectTurn(sem, before);
            && t.independent.Keys == n.independent.Keys + (if direct then touched - n.supported else {})
            && t.supported == n.supported + (if direct then {} else touched - n.independent.Keys)
                              + (if before in {H2, H3} || after in {H2, H3}
                                then NoteSet(pack) - sem.applied.Ledger().relations.Keys else {})
            && t.emitted == n.emitted
  {}

  /** Attribution as sets: the relations touched go to the child or the support, and the unresolved to the support. */
  lemma Attribution(notes: set<string>, before: set<string>, now: set<string>, child: set<string>,
      supported: set<string>,
                    touched: set<string>, direct: bool, shown: bool)
    requires child <= notes && supported <= notes && child !! supported && child <= before
    requires notes * before <= child + supported
    requires before <= now && touched <= notes && touched <= now && notes * (now - before) <= touched
    ensures var c := child + (if direct then touched - supported else {});
            var s := supported + (if direct then {} else touched - child) + (if shown then notes - now else {});
            && c <= notes && s <= notes && c !! s && c <= now && notes * now <= c + s
            && (!shown && supported <= before ==> s <= now)
  {}

  lemma TrackPointsAll(pack: TaskPack, l: Ledger, n: NoteState, sem: Semantics, before: HintLevel, after: HintLevel)
    requires Sound(pack, l, sem.applied) && NotesFit(pack, l, n)
    ensures var t := Track(pack, n, sem, before, after);
            forall r | r in t.independent :: Points(t.independent[r], sem.applied.Ledger(), r)
  {
    hide Track, Sound, NotesFit, Points;
    forall r | r in Track(pack, n, sem, before, after).independent
      ensures Points(Track(pack, n, sem, before, after).independent[r], sem.applied.Ledger(), r)
    {
      TrackPoints(pack, l, n, sem, before, after, r);
    }
  }

  lemma TrackHint(before: HintLevel, after: HintLevel)
    requires HintRank(before) <= HintRank(after)
    ensures after in {H0, H1} ==> !(before in {H2, H3} || after in {H2, H3})
  {}

  /** Tracking keeps a task's provenance fitting its ledger. */
  lemma TrackFits(pack: TaskPack, l: Ledger, n: NoteState, sem: Semantics, before: HintLevel, after: HintLevel)
    requires NotesFit(pack, l, n) && HintFits(before, l, n) && HintRank(before) <= HintRank(after)
    requires Sound(pack, l, sem.applied) && Evidenced(l, sem.applied.progress)
    ensures var t := Track(pack, n, sem, before, after);
            NotesFit(pack, sem.applied.Ledger(), t) && HintFits(after, sem.applied.Ledger(), t)
  {
    TouchedRelations(pack, l, sem);
    TrackKeys(pack, n, sem, before, after);
    TrackPointsAll(pack, l, n, sem, before, after);
    TrackHint(before, after);
    Attribution(NoteSet(pack), l.relations.Keys, sem.applied.Ledger().relations.Keys, n.independent.Keys, n.supported,
                Touched(pack.noteRelations, sem), Home.DirectTurn(sem, before), before in {H2, H3}
                  || after in {H2, H3});
    hide Track, Touched, Sound, Points, NoteSet, Evidenced, Home.DirectTurn, HintRank;
  }

  /** The child gains exactly the note relations this turn verified first, when the turn was direct. */
  lemma TrackCredits(pack: TaskPack, l: Ledger, n: NoteState, sem: Semantics, before: HintLevel, after: HintLevel,
      r: string)
    requires NotesFit(pack, l, n) && HintFits(before, l, n)
    requires Sound(pack, l, sem.applied) && Evidenced(l, sem.applied.progress)
    ensures r in Track(pack, n, sem, before, after).independent <==>
            || r in n.independent
            || (r in NoteSet(pack) && Home.DirectTurn(sem, before) && r !in l.relations
                 && r in sem.applied.Ledger().relations)
  {
    TouchedRelations(pack, l, sem);
    TrackKeys(pack, n, sem, before, after);
    hide Track, Touched, Sound, Points, NoteSet, Evidenced, Usable;
  }

  // ----- one turn of the scenario -----

  function LedgerOf(sc: Scenario, s: LifeState, st: Stage): Ledger
    requires Placed(sc, s) && st in sc.stages
  {
    assert InUse(s.active, st);
    s.ledgers[st.taskId]
  }

  function NotesOf(sc: Scenario, s: LifeState, st: Stage): NoteState
    requires Placed(sc, s) && st in sc.stages
  {
    assert InUse(s.active, st);
    s.notes[st.taskId]
  }

  /** Nothing of the task changed. */
  ghost predicate SameTask(sc: Scenario, s: LifeState, n: LifeState, st: Stage)
    requires Placed(sc, s) && Placed(sc, n) && st in sc.stages
  {
    PackOf(sc, n, st) == PackOf(sc, s, st) && LedgerOf(sc, n, st) == LedgerOf(sc, s, st)
      && NotesOf(sc, n, st) == NotesOf(sc, s, st)
  }

  ghost predicate QuestionBound(sc: Scenario, s: LifeState)
    requires Placed(sc, s)
  {
    var q := Ask(Current(sc, s), false, s.ladder.expression, CurrentLedger(sc, s));
    q.Some? && s.subgoal == q.value.subgoal
  }

  function Tracked(sc: Scenario, s: LifeState, sem: Semantics): NoteState
    requires Placed(sc, s)
  {
    Track(Current(sc, s), CurrentNotes(sc, s), sem, s.ladder.hint, Policy(s.ladder, sem).hint)
  }

  predicate Done(sem: Semantics) { sem.applied.completion.Complete() }

  predicate Last(sc: Scenario, s: LifeState) { s.index + 1 >= |sc.stages| }

  /** The turn's effect on the task it was taken in: pack kept, ledger and provenance moved on, the note out if done. */
  ghost predicate TaskTurned(sc: Scenario, s: LifeState, n: LifeState, sem: Semantics)
    requires Placed(sc, s) && Placed(sc, n)
  {
    var st := sc.stages[s.index];
    && PackOf(sc, n, st) == Current(sc, s)
    && LedgerOf(sc, n, st) == sem.applied.Ledger()
    && NotesOf(sc, n, st) == (if Done(sem) then Emit(Current(sc, s), sem.applied.Ledger(), Tracked(sc, s, sem))
         else Tracked(sc, s, sem))
  }

  /** Its effect on the credit of the scenario: only finishing a task counts. */
  ghost predicate CreditTurned(sc: Scenario, s: LifeState, n: LifeState, sem: Semantics)
    requires Placed(sc, s)
  {
    var joint := sem.source == StructuredJoint;
    if Done(sem) then
      && n.jointUsed == (s.jointUsed || joint)
      && n.allDirect == (s.allDirect && TaskDirect(Current(sc, s), Tracked(sc, s, sem), sem.source) && !joint)
    else n.jointUsed == s.jointUsed && n.allDirect == s.allDirect
  }

  /** Every task but the current one, and the one just entered, is left alone. */
  ghost predicate OthersSame(sc: Scenario, s: LifeState, n: LifeState)
    requires Placed(sc, s) && Placed(sc, n)
  {
    forall i: nat | i < |sc.stages| && i != s.index && i != n.index :: SameTask(sc, s, n, sc.stages[i])
  }

  /** Where the conversation stands after the turn. */
  ghost predicate Position(sc: Scenario, s: LifeState, n: LifeState, sem: Semantics)
    requires Placed(sc, s) && Placed(sc, n)
  {
    if !Done(sem) then
      && n.index == s.index && n.ladder == Policy(s.ladder, sem) && QuestionBound(sc, n)
      && n.completed == s.completed && n.outcome == s.outcome && n.facts == s.facts && n.reward == s.reward
    else if Last(sc, s) then
      && n.index == s.index && n.ladder == Policy(s.ladder, sem) && n.completed && n.facts.Some?
      && n.outcome == Some(if n.allDirect && !n.jointUsed then Home.Taught else Home.Supported)
      && (n.reward <==> n.outcome == Some(Home.Taught))
    else
      var st := sc.stages[s.index + 1];
      && n.index == s.index + 1 && LedgerOf(sc, n, st) == EmptyLedger(PackOf(sc, n, st))
           && NotesOf(sc, n, st) == NotesOf(sc, s, st)
      && n.ladder == EntryLadder(PackOf(sc, n, st)) && QuestionBound(sc, n)
      && n.completed == s.completed && n.outcome == s.outcome && n.facts == s.facts && n.reward == s.reward
  }

  ghost predicate Advanced(sc: Scenario, s: LifeState, n: LifeState, sem: Semantics)
    requires Placed(sc, s)
  {
    Placed(sc, n) && TaskTurned(sc, s, n, sem) && CreditTurned(sc, s, n, sem) && OthersSame(sc, s, n)
      && Position(sc, s, n, sem)
  }

  lemma OtherTask(sc: Scenario, a: Stage, b: Stage)
    requires Runnable(sc) && a in sc.stages && b in sc.stages
    ensures a != b <==> a.taskId != b.taskId
  {
    UniqueStages(sc);
    hide Wired;
  }

  lemma StageIndex(sc: Scenario, i: nat, j: nat)
    requires Runnable(sc) && i < |sc.stages| && j < |sc.stages|
    ensures i == j <==> sc.stages[i] == sc.stages[j]
  {
    if i != j {
      assert if i < j then sc.Apart(i, j) else sc.Apart(j, i);
    }
  }

  lemma AbsorbFrame(sc: Scenario, s: LifeState, sem: Semantics, st: Stage)
    requires Placed(sc, s) && st in sc.stages
    ensures var m := Absorb(sc, s, sem);
            && PackOf(sc, m, st) == PackOf(sc, s, st)
            && (st != sc.stages[s.index] ==> SameTask(sc, s, m, st))
            && (st == sc.stages[s.index] ==>
                 LedgerOf(sc, m, st) == sem.applied.Ledger() && NotesOf(sc, m, st) == Tracked(sc, s, sem))
  {
    OtherTask(sc, st, sc.stages[s.index]);
    hide Runnable, InUse, Policy, Track;
  }

  lemma MoveFrame(sc: Scenario, s: LifeState, variant: string, next: Stage, st: Stage)
    requires Placed(sc, s) && s.index + 1 < |sc.stages| && next == sc.stages[s.index + 1] && variant in next.variants
    requires st in sc.stages && st != next
    ensures SameTask(sc, s, MoveOn(sc, s, variant), st)
  {
    OtherTask(sc, st, next);
    hide Runnable, InUse, EntryLadder, EmptyLedger;
  }

  lemma MoveEnters(sc: Scenario, s: LifeState, variant: string, next: Stage)
    requires Placed(sc, s) && s.index + 1 < |sc.stages| && next == sc.stages[s.index + 1] && variant in next.variants
    ensures var m := MoveOn(sc, s, variant);
            var pack := next.variants[variant];
            && PackOf(sc, m, next) == pack && LedgerOf(sc, m, next) == EmptyLedger(pack)
            && NotesOf(sc, m, next) == NotesOf(sc, s, next) && m.ladder == EntryLadder(pack)
  {}

  lemma SameMaps(sc: Scenario, s: LifeState, n: LifeState, st: Stage)
    requires Placed(sc, s) && Placed(sc, n) && st in sc.stages
    requires n.active == s.active && n.ledgers == s.ledgers && n.notes == s.notes
    ensures SameTask(sc, s, n, st)
  {}

  lemma SameMapsButNotes(sc: Scenario, s: LifeState, n: LifeState, t: string, note: NoteState, st: Stage)
    requires Placed(sc, s) && Placed(sc, n) && st in sc.stages
    requires n.active == s.active && n.ledgers == s.ledgers && n.notes == s.notes[t := note]
    ensures PackOf(sc, n, st) == PackOf(sc, s, st) && LedgerOf(sc, n, st) == LedgerOf(sc, s, st)
    ensures NotesOf(sc, n, st) == if st.taskId == t then note else NotesOf(sc, s, st)
  {}

  lemma AskNextOutcome(sc: Scenario, s: LifeState)
    requires Placed(sc, s) && LadderOk(s.ladder) && AskNext(sc, s).Ok?
    ensures var n := AskNext(sc, s).value; n == s.(subgoal := n.subgoal) && QuestionBound(sc, n)
  {}

  lemma StayAdvances(sc: Scenario, s: LifeState, sem: Semantics)
    requires Placed(sc, s) && LadderOk(s.ladder) && !Done(sem) && Conclude(sc, s, sem).Ok?
    ensures Advanced(sc, s, Conclude(sc, s, sem).value, sem)
  {
    var m, n := Absorb(sc, s, sem), Conclude(sc, s, sem).value;
    PolicyIsMonotone(s.ladder, sem);
    AbsorbLeaves(sc, s, sem);
    StayIsAsking(sc, s, sem);
    AskNextOutcome(sc, m);
    forall st | st in sc.stages
      ensures SameTask(sc, m, n, st)
      ensures PackOf(sc, n, st) == PackOf(sc, s, st)
      ensures st != sc.stages[s.index] ==> SameTask(sc, s, n, st)
    {
      AbsorbFrame(sc, s, sem, st);
      SameMaps(sc, m, n, st);
    }
    StayParts(sc, s, m, n, sem);
  }

  lemma AbsorbLeaves(sc: Scenario, s: LifeState, sem: Semantics)
    requires Placed(sc, s)
    ensures var m := Absorb(sc, s, sem);
            && m.index == s.index && m.completed == s.completed && m.outcome == s.outcome && m.facts == s.facts
            && m.reward == s.reward && m.jointUsed == s.jointUsed && m.allDirect == s.allDirect
                 && m.ladder == Policy(s.ladder, sem)
            && Current(sc, m) == Current(sc, s) && CurrentLedger(sc, m) == sem.applied.Ledger()
                 && CurrentNotes(sc, m) == Tracked(sc, s, sem)
  {}

  lemma StayIsAsking(sc: Scenario, s: LifeState, sem: Semantics)
    requires Placed(sc, s) && !Done(sem) && Conclude(sc, s, sem).Ok?
    ensures Conclude(sc, s, sem) == AskNext(sc, Absorb(sc, s, sem))
  {
    hide Placed, AskNext, Absorb, Ask, SpeechFailure, CompleteTask, Deliver;
  }

  lemma StayParts(sc: Scenario, s: LifeState, m: LifeState, n: LifeState, sem: Semantics)
    requires Placed(sc, s) && !Done(sem) && m == Absorb(sc, s, sem) && Placed(sc, n)
    requires n == m.(subgoal := n.subgoal) && QuestionBound(sc, n)
    requires forall st | st in sc.stages :: SameTask(sc, m, n, st) && PackOf(sc, n, st) == PackOf(sc, s, st)
    requires forall st | st in sc.stages && st != sc.stages[s.index] :: SameTask(sc, s, n, st)
    ensures Advanced(sc, s, n, sem)
  {
    AbsorbLeaves(sc, s, sem);
    AbsorbFrame(sc, s, sem, sc.stages[s.index]);
    forall i: nat | i < |sc.stages| && i != s.index ensures SameTask(sc, s, n, sc.stages[i]) {
      StageIndex(sc, i, s.index);
    }
    hide Placed, Runnable, InUse, Absorb, Policy, Track, PackOf, LedgerOf, NotesOf, QuestionBound, Emit;
  }

  /** The state with the finished task's note out. */
  function Noted(sc: Scenario, m: LifeState, p: LifeState): (n: LifeState)
    requires Placed(sc, m) && Placed(sc, p)
    ensures Placed(sc, n)
  {
    var t := TaskId(sc, m);
    p.(notes := p.notes[t := Emit(Current(sc, m), CurrentLedger(sc, m), p.notes[t])])
  }

  lemma DeliverIs(sc: Scenario, m: LifeState, p: LifeState)
    requires Placed(sc, m) && Placed(sc, p) && Deliver(sc, m, p).Ok?
    ensures var q := Noted(sc, m, p);
            && (p.completed ==>
                 Deliver(sc, m, p).value == q.(facts := Deliver(sc, m, p).value.facts)
                   && Deliver(sc, m, p).value.facts.Some?)
            && (!p.completed ==> Deliver(sc, m, p) == AskNext(sc, q))
  {
    hide Placed, Current, CurrentLedger, TaskId, AskNext, FactsOf, Emit;
  }

  /** The last steps of a turn that finished a task. */
  lemma DeliverOutcome(sc: Scenario, m: LifeState, p: LifeState)
    requires Placed(sc, m) && Placed(sc, p) && LadderOk(p.ladder) && Deliver(sc, m, p).Ok?
    ensures var n := Deliver(sc, m, p).value;
            && n == Noted(sc, m, p).(subgoal := n.subgoal, facts := n.facts)
            && (if p.completed then n.facts.Some? else n.facts == p.facts && QuestionBound(sc, n))
  {
    DeliverIs(sc, m, p);
    if !p.completed {
      assert Noted(sc, m, p).ladder == p.ladder;
      AskNextOutcome(sc, Noted(sc, m, p));
    }
    hide Placed, Deliver, AskNext, QuestionBound, LadderOk;
  }

  lemma DoneIsDelivered(sc: Scenario, s: LifeState, sem: Semantics)
    requires Placed(sc, s) && Done(sem) && Conclude(sc, s, sem).Ok?
    ensures var m := Absorb(sc, s, sem);
            && CompleteTask(sc, m, sem.source).Ok?
            && Conclude(sc, s, sem) == Deliver(sc, m, CompleteTask(sc, m, sem.source).value)
  {
    hide Placed, AskNext, Absorb, Ask, SpeechFailure, CompleteTask, Deliver;
  }

  /** After delivery a task is as it was, but for the finished one's note. */
  lemma DeliverFrame(sc: Scenario, m: LifeState, p: LifeState, st: Stage)
    requires Placed(sc, m) && Placed(sc, p) && LadderOk(p.ladder) && Deliver(sc, m, p).Ok? && st in sc.stages
    ensures var n := Deliver(sc, m, p).value;
            && PackOf(sc, n, st) == PackOf(sc, p, st) && LedgerOf(sc, n, st) == LedgerOf(sc, p, st)
            && NotesOf(sc, n, st) == (if st == sc.stages[m.index]
                 then Emit(Current(sc, m), CurrentLedger(sc, m), NotesOf(sc, p, st))
                                      else NotesOf(sc, p, st))
  {
    DeliverOutcome(sc, m, p);
    var n := Deliver(sc, m, p).value;
    var t := TaskId(sc, m);
    OtherTask(sc, st, sc.stages[m.index]);
    SameMapsButNotes(sc, p, n, t, Emit(Current(sc, m), CurrentLedger(sc, m), p.notes[t]), st);
    hide Runnable, InUse, Deliver, Emit, Current, CurrentLedger, PackOf, LedgerOf;
  }

  lemma CreditedLeaves(sc: Scenario, m: LifeState, source: Source, st: Stage)
    requires Placed(sc, m) && st in sc.stages
    ensures SameTask(sc, m, Credited(sc, m, source), st)
  {}

  lemma CreditedIs(sc: Scenario, s: LifeState, sem: Semantics)
    requires Placed(sc, s) && Done(sem)
    ensures var m := Absorb(sc, s, sem);
            var f := Credited(sc, m, sem.source);
            && CreditTurned(sc, s, f, sem)
            && f == m.(jointUsed := f.jointUsed, allDirect := f.allDirect)
  {}

  lemma EndAdvances(sc: Scenario, s: LifeState, sem: Semantics)
    requires Placed(sc, s) && LadderOk(s.ladder) && Done(sem) && Last(sc, s) && Conclude(sc, s, sem).Ok?
    ensures Advanced(sc, s, Conclude(sc, s, sem).value, sem)
  {
    var m, n := Absorb(sc, s, sem), Conclude(sc, s, sem).value;
    PolicyIsMonotone(s.ladder, sem);
    AbsorbLeaves(sc, s, sem);
    DoneIsDelivered(sc, s, sem);
    CreditedIs(sc, s, sem);
    var f := Credited(sc, m, sem.source);
    var p := Ended(f);
    EndIs(sc, m, sem.source);
    DeliverOutcome(sc, m, p);
    forall st | st in sc.stages
      ensures st != sc.stages[s.index] ==> SameTask(sc, s, n, st)
      ensures st == sc.stages[s.index] ==> Delivered(sc, s, n, sem, st)
    {
      AbsorbFrame(sc, s, sem, st);
      SameMaps(sc, m, p, st);
      DeliverFrame(sc, m, p, st);
      hide Placed, Absorb, Credited, Ended, Deliver, Emit, Tracked, Conclude, CompleteTask, PackOf, LedgerOf, NotesOf,
           Current, CurrentLedger, Policy, CreditTurned;
    }
    AllOthersSame(sc, s, n);
    DeliveredTurns(sc, s, n, sem);
    EndParts(sc, s, f, n, sem);
  }

  lemma EndIs(sc: Scenario, m: LifeState, source: Source)
    requires Placed(sc, m) && Last(sc, m)
    ensures CompleteTask(sc, m, source) == Ok(Ended(Credited(sc, m, source)))
    ensures Placed(sc, Ended(Credited(sc, m, source)))
  {}

  /** The finished task after delivery. */
  ghost predicate Delivered(sc: Scenario, s: LifeState, n: LifeState, sem: Semantics, st: Stage)
    requires Placed(sc, s) && Placed(sc, n) && st in sc.stages
  {
    && PackOf(sc, n, st) == PackOf(sc, s, st)
    && LedgerOf(sc, n, st) == sem.applied.Ledger()
    && NotesOf(sc, n, st) == Emit(PackOf(sc, s, st), sem.applied.Ledger(), Tracked(sc, s, sem))
  }

  lemma DeliveredTurns(sc: Scenario, s: LifeState, n: LifeState, sem: Semantics)
    requires Placed(sc, s) && Placed(sc, n) && Done(sem) && Delivered(sc, s, n, sem, sc.stages[s.index])
    ensures TaskTurned(sc, s, n, sem)
  {}

  lemma AllOthersSame(sc: Scenario, s: LifeState, n: LifeState)
    requires Placed(sc, s) && Placed(sc, n)
    requires forall st | st in sc.stages && st != sc.stages[s.index] && st != sc.stages[n.index] ::
             SameTask(sc, s, n, st)
    ensures OthersSame(sc, s, n)
  {
    forall i: nat | i < |sc.stages| && i != s.index && i != n.index ensures SameTask(sc, s, n, sc.stages[i]) {
      StageIndex(sc, i, s.index);
      StageIndex(sc, i, n.index);
    }
  }

  lemma EndParts(sc: Scenario, s: LifeState, f: LifeState, n: LifeState, sem: Semantics)
    requires Placed(sc, s) && Placed(sc, n) && Done(sem) && Last(sc, s) && CreditTurned(sc, s, f, sem)
    requires f.index == s.index && f.ladder == Policy(s.ladder, sem) && n.facts.Some?
    requires n == Ended(f).(active := n.active, ledgers := n.ledgers, notes := n.notes, subgoal := n.subgoal,
             facts := n.facts)
    requires TaskTurned(sc, s, n, sem) && OthersSame(sc, s, n)
    ensures Advanced(sc, s, n, sem)
  {
    hide Placed, Policy, OthersSame, TaskTurned, TaskDirect, QuestionBound, Tracked, Current;
  }

  lemma MoveIs(sc: Scenario, m: LifeState, f: LifeState, source: Source)
    requires Placed(sc, m) && f == Credited(sc, m, source) && f.index + 1 < |sc.stages|
    ensures match NextVariant(sc, f)
            case None => CompleteTask(sc, m, source) == Err(SelectorFailed)
            case Some(v) => CompleteTask(sc, m, source) == Ok(MoveOn(sc, f, v))
  {}

  /** No task is entered at L0. */
  ghost predicate EntriesOpen(sc: Scenario) {
    forall st, v | st in sc.stages && v in st.variants :: st.variants[v].entryLevel != L0
  }

  lemma ValidEntriesOpen(sc: Scenario)
    requires sc.Valid()
    ensures EntriesOpen(sc)
  {
    forall st, v | st in sc.stages && v in st.variants ensures st.variants[v].entryLevel != L0 {
      assert LifeValid(st.variants[v]);
    }
  }

  /** A task just entered: its chosen variant, nothing learned yet, its provenance as before. */
  ghost predicate Entered(sc: Scenario, s: LifeState, n: LifeState, st: Stage, pack: TaskPack)
    requires Placed(sc, s) && Placed(sc, n) && st in sc.stages
  {
    PackOf(sc, n, st) == pack && LedgerOf(sc, n, st) == EmptyLedger(pack) && NotesOf(sc, n, st) == NotesOf(sc, s, st)
  }

  lemma MoveOther(sc: Scenario, s: LifeState, sem: Semantics, f: LifeState, v: string, next: Stage, st: Stage)
    requires Placed(sc, s) && Placed(sc, f) && f == Credited(sc, Absorb(sc, s, sem), sem.source)
    requires f.index + 1 < |sc.stages| && next == sc.stages[f.index + 1] && v in next.variants
    requires st in sc.stages && st != sc.stages[s.index] && st != next
    ensures SameTask(sc, s, MoveOn(sc, f, v), st)
  {
    hide Runnable, InUse, Absorb, Credited, MoveOn, PackOf, LedgerOf, NotesOf;
    AbsorbFrame(sc, s, sem, st);
    CreditedLeaves(sc, Absorb(sc, s, sem), sem.source, st);
    MoveFrame(sc, f, v, next, st);
  }

  lemma MoveLeft(sc: Scenario, s: LifeState, sem: Semantics, f: LifeState, v: string, next: Stage)
    requires Placed(sc, s) && Placed(sc, f) && f == Credited(sc, Absorb(sc, s, sem), sem.source) && f.index == s.index
    requires f.index + 1 < |sc.stages| && next == sc.stages[f.index + 1] && v in next.variants
    ensures var p := MoveOn(sc, f, v);
            var st := sc.stages[s.index];
            && PackOf(sc, p, st) == PackOf(sc, s, st) && LedgerOf(sc, p, st) == sem.applied.Ledger()
            && NotesOf(sc, p, st) == Tracked(sc, s, sem)
  {
    hide Runnable, InUse, Absorb, Credited, MoveOn, PackOf, LedgerOf, NotesOf, Tracked;
    var st := sc.stages[s.index];
    StageIndex(sc, s.index, f.index + 1);
    AbsorbFrame(sc, s, sem, st);
    CreditedLeaves(sc, Absorb(sc, s, sem), sem.source, st);
    MoveFrame(sc, f, v, next, st);
  }

  lemma MoveNext(sc: Scenario, s: LifeState, sem: Semantics, f: LifeState, v: string, next: Stage)
    requires Placed(sc, s) && Placed(sc, f) && f == Credited(sc, Absorb(sc, s, sem), sem.source) && f.index == s.index
    requires f.index + 1 < |sc.stages| && next == sc.stages[f.index + 1] && v in next.variants
    ensures Entered(sc, s, MoveOn(sc, f, v), next, next.variants[v])
    ensures MoveOn(sc, f, v).ladder == EntryLadder(next.variants[v])
  {
    hide Runnable, InUse, Absorb, Credited, MoveOn, PackOf, LedgerOf, NotesOf, EmptyLedger, EntryLadder;
    StageIndex(sc, s.index, f.index + 1);
    AbsorbFrame(sc, s, sem, next);
    CreditedLeaves(sc, Absorb(sc, s, sem), sem.source, next);
    MoveEnters(sc, f, v, next);
  }

  lemma MoveDelivers(sc: Scenario, s: LifeState, sem: Semantics, m: LifeState, f: LifeState, v: string, next: Stage,
      p: LifeState)
    requires Placed(sc, s) && m == Absorb(sc, s, sem) && Placed(sc, m) && Placed(sc, f) && Placed(sc, p)
    requires f == Credited(sc, m, sem.source) && f.index == s.index
    requires f.index + 1 < |sc.stages| && next == sc.stages[f.index + 1] && v in next.variants && p == MoveOn(sc, f, v)
    requires LadderOk(p.ladder) && Deliver(sc, m, p).Ok?
    ensures Delivered(sc, s, Deliver(sc, m, p).value, sem, sc.stages[s.index])
  {
    hide Runnable, InUse, Absorb, Credited, Deliver, Emit, Tracked, PackOf, LedgerOf, NotesOf, CurrentLedger, Policy,
         EmptyLedger, MoveOn, LadderOk, Entered, QuestionBound;
    AbsorbLeaves(sc, s, sem);
    MoveLeft(sc, s, sem, f, v, next);
    DeliverFrame(sc, m, p, sc.stages[s.index]);
  }

  lemma DeliverKeepsEntered(sc: Scenario, s: LifeState, m: LifeState, p: LifeState, next: Stage, pack: TaskPack)
    requires Placed(sc, s) && Placed(sc, m) && Placed(sc, p) && next in sc.stages && next != sc.stages[m.index]
    requires LadderOk(p.ladder) && Deliver(sc, m, p).Ok? && Entered(sc, s, p, next, pack)
    ensures Entered(sc, s, Deliver(sc, m, p).value, next, pack)
  {
    hide Runnable, InUse, Deliver, Emit, PackOf, LedgerOf, NotesOf, Current, CurrentLedger, EmptyLedger, LadderOk;
    DeliverFrame(sc, m, p, next);
  }

  lemma MoveLeavesOthers(sc: Scenario, s: LifeState, sem: Semantics, m: LifeState, f: LifeState, v: string, next: Stage,
      p: LifeState, st: Stage)
    requires Placed(sc, s) && m == Absorb(sc, s, sem) && Placed(sc, m) && Placed(sc, f) && Placed(sc, p)
    requires f == Credited(sc, m, sem.source) && f.index == s.index
    requires f.index + 1 < |sc.stages| && next == sc.stages[f.index + 1] && v in next.variants && p == MoveOn(sc, f, v)
    requires LadderOk(p.ladder) && Deliver(sc, m, p).Ok?
    requires st in sc.stages && st != sc.stages[s.index] && st != next
    ensures SameTask(sc, s, Deliver(sc, m, p).value, st)
  {
    hide Runnable, InUse, Absorb, Credited, Deliver, Emit, Tracked, PackOf, LedgerOf, NotesOf, Current, CurrentLedger,
         Policy, MoveOn, LadderOk;
    AbsorbLeaves(sc, s, sem);
    MoveOther(sc, s, sem, f, v, next, st);
    DeliverFrame(sc, m, p, st);
  }

  lemma MoveAdvances(sc: Scenario, s: LifeState, sem: Semantics)
    requires Placed(sc, s) && EntriesOpen(sc) && Done(sem) && !Last(sc, s) && !s.completed && Conclude(sc, s, sem).Ok?
    ensures Advanced(sc, s, Conclude(sc, s, sem).value, sem)
  {
    hide Runnable, InUse, Current, CurrentNotes, CurrentLedger, Track, Emit, Policy, TaskDirect, QuestionBound,
         Absorb, Credited, MoveOn, Deliver, Conclude;
    hide CompleteTask, NextVariant, PackOf, LedgerOf, NotesOf, Tracked, EmptyLedger, SameTask, Delivered, Entered,
         CreditTurned, OthersSame, TaskTurned, Advanced;
    var m, n := Absorb(sc, s, sem), Conclude(sc, s, sem).value;
    AbsorbLeaves(sc, s, sem);
    DoneIsDelivered(sc, s, sem);
    CreditedIs(sc, s, sem);
    var f := Credited(sc, m, sem.source);
    MoveIs(sc, m, f, sem.source);
    var v := NextVariant(sc, f).value;
    var next := sc.stages[s.index + 1];
    var p := MoveOn(sc, f, v);
    MoveNext(sc, s, sem, f, v, next);
    assert LadderOk(p.ladder);
    MoveKeeps(sc, f, v);
    DeliverOutcome(sc, m, p);
    MoveDelivers(sc, s, sem, m, f, v, next, p);
    StageIndex(sc, s.index, s.index + 1);
    DeliverKeepsEntered(sc, s, m, p, next, next.variants[v]);
    forall st | st in sc.stages && st != sc.stages[s.index] && st != sc.stages[n.index] ensures SameTask(sc, s, n, st) {
      MoveLeavesOthers(sc, s, sem, m, f, v, next, p, st);
    }
    AllOthersSame(sc, s, n);
    EnteredPack(sc, s, n, next, next.variants[v]);
    MoveParts(sc, s, f, n, sem);
  }

  lemma EnteredPack(sc: Scenario, s: LifeState, n: LifeState, st: Stage, pack: TaskPack)
    requires Placed(sc, s) && Placed(sc, n) && st in sc.stages && Entered(sc, s, n, st, pack)
    ensures PackOf(sc, n, st) == pack
  {}

  lemma MoveKeeps(sc: Scenario, f: LifeState, v: string)
    requires Placed(sc, f) && f.index + 1 < |sc.stages| && v in sc.stages[f.index + 1].variants
    ensures var p := MoveOn(sc, f, v);
            && p.index == f.index + 1 && p.completed == f.completed && p.outcome == f.outcome && p.facts == f.facts
                 && p.reward == f.reward
            && p.jointUsed == f.jointUsed && p.allDirect == f.allDirect
  {}

  lemma MoveParts(sc: Scenario, s: LifeState, f: LifeState, n: LifeState, sem: Semantics)
    requires Placed(sc, s) && Placed(sc, n) && Done(sem) && s.index + 1 < |sc.stages| && CreditTurned(sc, s, f, sem)
    requires n.index == s.index + 1 && n.completed == s.completed && n.outcome == s.outcome && n.facts == s.facts
    requires n.reward == s.reward
    requires n.jointUsed == f.jointUsed && n.allDirect == f.allDirect
    requires Delivered(sc, s, n, sem, sc.stages[s.index]) && OthersSame(sc, s, n)
    requires Entered(sc, s, n, sc.stages[s.index + 1], PackOf(sc, n, sc.stages[s.index + 1]))
    requires n.ladder == EntryLadder(PackOf(sc, n, sc.stages[s.index + 1])) && QuestionBound(sc, n)
    ensures Advanced(sc, s, n, sem)
  {
    DeliveredTurns(sc, s, n, sem);
    hide Placed, OthersSame, TaskTurned, TaskDirect, QuestionBound, Tracked, Current, EntryLadder, PackOf, LedgerOf,
         NotesOf, EmptyLedger;
  }

  /** Everything a successful turn does. */
  lemma ConcludeAdvances(sc: Scenario, s: LifeState, sem: Semantics)
    requires Placed(sc, s) && sc.Valid() && LadderOk(s.ladder) && !s.completed && Conclude(sc, s, sem).Ok?
    ensures Advanced(sc, s, Conclude(sc, s, sem).value, sem)
  {
    ValidEntriesOpen(sc);
    if !Done(sem) {
      StayAdvances(sc, s, sem);
    } else if Last(sc, s) {
      EndAdvances(sc, s, sem);
    } else {
      MoveAdvances(sc, s, sem);
    }
    hide *;
  }
}
