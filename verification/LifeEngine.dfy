/** The life engine: one conversation through the tasks of a scenario. Interpretation, ladder policy, question and
    response plan are those of the home engine; provenance, completion and transition are its own. */
module LifeEngine {
  import opened Common
  import opened Content
  import opened Ledgers
  import opened LedgerOperations
  import opened Ladders
  import opened Questions
  import opened Turns
  import opened LifeContent
  import opened Json
  import Home = HomeEngine

  datatype Attribution = ByChild | Coauthored

  /** One task's provenance: evidence of the note relations the child taught, those learned with support, whether a
      joint action was used, and the note once it is out. */
  datatype NoteState = NoteState(
    independent: map<string, seq<EvidenceId>>,
    supported: set<string>,
    jointUsed: bool,
    emitted: Option<Attribution>)

  const FRESH_NOTES := NoteState(map[], {}, false, None)

  datatype LifeState = LifeState(
    index: nat,
    ladder: Ladder,
    completed: bool,
    subgoal: string,
    active: map<string, string>,
    ledgers: map<string, Ledger>,
    notes: map<string, NoteState>,
    jointUsed: bool,
    allDirect: bool,
    outcome: Option<Home.Outcome>,
    reward: bool,
    facts: Option<map<string, Json>>,
    version: nat)

  datatype LifeError = TurnFailed(error: TurnError) | SelectorFailed | ProjectionFailed

  // ----- where a conversation is -----

  function FindStage(stages: seq<Stage>, id: string): (r: Option<Stage>)
    ensures r.Some? ==> r.value in stages && r.value.taskId == id
    ensures r.None? ==> forall st | st in stages :: st.taskId != id
  {
    if stages == [] then None
    else
      assert stages == [stages[0]] + stages[1..];
      if stages[0].taskId == id then Some(stages[0]) else FindStage(stages[1..], id)
  }

  /** Every task of the scenario has its active variant, ledger and note state. */
  ghost predicate Placed(sc: Scenario, s: LifeState) {
    && Runnable(sc) && s.index < |sc.stages|
    && s.active.Keys == s.ledgers.Keys == s.notes.Keys == sc.TaskIds()
    && forall st {:trigger InUse(s.active, st)} | st in sc.stages :: InUse(s.active, st)
  }

  ghost predicate InUse(active: map<string, string>, st: Stage) {
    st.taskId in active && active[st.taskId] in st.variants
  }

  /** The pack in use for a stage. */
  function PackOf(sc: Scenario, s: LifeState, st: Stage): (pack: TaskPack)
    requires Placed(sc, s) && st in sc.stages
    ensures OneTargetEach(pack)
  {
    assert InUse(s.active, st) && Wired(sc, st);
    st.variants[s.active[st.taskId]]
  }

  function TaskId(sc: Scenario, s: LifeState): (t: string)
    requires Placed(sc, s)
    ensures t in s.ledgers && t in s.notes
  {
    assert InUse(s.active, sc.stages[s.index]);
    sc.stages[s.index].taskId
  }

  function Current(sc: Scenario, s: LifeState): (pack: TaskPack)
    requires Placed(sc, s)
    ensures OneTargetEach(pack)
  {
    PackOf(sc, s, sc.stages[s.index])
  }

  function CurrentLedger(sc: Scenario, s: LifeState): Ledger
    requires Placed(sc, s)
  {
    s.ledgers[TaskId(sc, s)]
  }

  function CurrentNotes(sc: Scenario, s: LifeState): NoteState
    requires Placed(sc, s)
  {
    s.notes[TaskId(sc, s)]
  }

  // ----- note provenance -----

  /** The ids of the listed evidence that are new this turn, in order. */
  function NewIds(evidence: seq<Evidence>, news: set<EvidenceId>): (r: seq<EvidenceId>)
    ensures forall i :: i in r <==> i in news && i in Ids(evidence)
  {
    if evidence == [] then []
    else
      assert evidence == [evidence[0]] + evidence[1..];
      assert Ids(evidence) == {evidence[0].id} + Ids(evidence[1..]);
      (if evidence[0].id in news then [evidence[0].id] else []) + NewIds(evidence[1..], news)
  }

  function TurnEvidence(s: Semantics, r: string): seq<EvidenceId> {
    var l := s.applied.Ledger();
    if r in l.relations then NewIds(l.relations[r], Elements(s.applied.progress.newRelationEvidence)) else []
  }

  /** The listed relations that gained evidence this turn. */
  function Touched(ids: seq<string>, s: Semantics): set<string> {
    set r | r in ids && TurnEvidence(s, r) != []
  }

  lemma TouchedSnoc(ids: seq<string>, r: string, s: Semantics)
    ensures Touched(ids + [r], s) == Touched(ids, s) + (if TurnEvidence(s, r) != [] then {r} else {})
  {}

  lemma TouchedNone(s: Semantics)
    ensures Touched([], s) == {}
  {}

  function Independent(n: NoteState, touched: set<string>, s: Semantics, direct: bool): map<string, seq<EvidenceId>> {
    if direct then n.independent + map r | r in touched - n.supported :: Dedup(TurnEvidence(s, r)) else n.independent
  }

  function Supports(n: NoteState, touched: set<string>, direct: bool): set<string> {
    if direct then n.supported else n.supported + (touched - n.independent.Keys)
  }

  lemma SortOne(n: NoteState, touched: set<string>, r: string, s: Semantics)
    ensures Independent(n, touched + {r}, s, true) ==
            if r in n.supported then Independent(n, touched, s, true)
            else Independent(n, touched, s, true)[r := Dedup(TurnEvidence(s, r))]
    ensures Supports(n, touched + {r}, false) ==
            if r in n.independent then Supports(n, touched, false) else Supports(n, touched, false) + {r}
  {
    hide TurnEvidence, Dedup;
  }

  lemma SortNone(n: NoteState, s: Semantics, direct: bool)
    ensures Independent(n, {}, s, direct) == n.independent && Supports(n, {}, direct) == n.supported
    ensures forall touched ::
            Independent(n, touched, s, false) == n.independent && Supports(n, touched, true) == n.supported
  {}

  /** `_track_note_provenance` */
  function Track(pack: TaskPack, n: NoteState, s: Semantics, before: HintLevel, after: HintLevel): NoteState {
    if pack.noteRelations == [] then n
    else
      var touched := Touched(pack.noteRelations, s);
      n.(independent := Independent(n, touched, s, Home.DirectTurn(s, before)),
         supported := Supports(n, touched, Home.DirectTurn(s, before))
                      + (if before in {H2, H3} || after in {H2, H3} then Home.Unresolved(pack, s.applied.Ledger())
                        else {}),
         jointUsed := n.jointUsed || s.source == StructuredJoint)
  }

  predicate AllTaught(pack: TaskPack, n: NoteState) {
    Elements(pack.noteRelations) <= n.independent.Keys
  }

  /** `_note_update`: a task's note goes out once, when all its relations are verified. */
  function Emit(pack: TaskPack, l: Ledger, n: NoteState): NoteState {
    if pack.noteRelations == [] || !(Elements(pack.noteRelations) <= l.relations.Keys) || n.emitted.Some? then n
    else n.(emitted := Some(if AllTaught(pack, n) && !n.jointUsed then ByChild else Coauthored))
  }

  // ----- completion and transition -----

  predicate TaskDirect(pack: TaskPack, n: NoteState, source: Source) {
    if pack.noteRelations != [] then AllTaught(pack, n) else source == SonnetLow
  }

  /** The variant of the next stage; a selector reads the ledger of its earlier task. */
  function NextVariant(sc: Scenario, s: LifeState): (r: Option<string>)
    requires Placed(sc, s) && s.index + 1 < |sc.stages|
    ensures r.Some? ==> r.value in sc.stages[s.index + 1].variants
  {
    var next := sc.stages[s.index + 1];
    assert Wired(sc, next);
    match next.selector
    case None => Some(next.defaultVariant)
    case Some(sel) => LifeContent.Select(sc.show, sel, s.ledgers[sel.sourceTask])
  }

  function EntryLadder(pack: TaskPack): Ladder {
    Ladder(pack.entryLevel, H0, 0, 0, 0, 0, H0)
  }

  /** The state at the start of the next task with the chosen variant. */
  function MoveOn(sc: Scenario, s: LifeState, variant: string): (n: LifeState)
    requires Placed(sc, s) && s.index + 1 < |sc.stages| && variant in sc.stages[s.index + 1].variants
    ensures Placed(sc, n)
  {
    var next := sc.stages[s.index + 1];
    var pack := next.variants[variant];
    MoveKeepsPlaced(sc, s.active, variant, next);
    s.(index := s.index + 1, ladder := EntryLadder(pack), subgoal := pack.initial.planId,
       active := s.active[next.taskId := variant], ledgers := s.ledgers[next.taskId := EmptyLedger(pack)])
  }

  lemma MoveKeepsPlaced(sc: Scenario, active: map<string, string>, variant: string, next: Stage)
    requires Runnable(sc) && next in sc.stages && variant in next.variants
    requires forall st | st in sc.stages :: InUse(active, st)
    ensures next.taskId in active
    ensures forall st | st in sc.stages :: InUse(active[next.taskId := variant], st)
  {
    hide Wired;
    UniqueStages(sc);
    forall st | st in sc.stages ensures InUse(active[next.taskId := variant], st) {
      assert InUse(active, st);
    }
    assert InUse(active, next);
  }

  /** What finishing the current task does to the credit of the scenario. */
  function Credited(sc: Scenario, s: LifeState, source: Source): (f: LifeState)
    requires Placed(sc, s)
    ensures Placed(sc, f) && f == s.(jointUsed := f.jointUsed, allDirect := f.allDirect)
  {
    var joint := source == StructuredJoint;
    s.(jointUsed := s.jointUsed || joint,
       allDirect := s.allDirect && TaskDirect(Current(sc, s), CurrentNotes(sc, s), source) && !joint)
  }

  lemma CreditedBy(sc: Scenario, s: LifeState, source: Source)
    requires Placed(sc, s)
    ensures var joint := source == StructuredJoint;
            Credited(sc, s, source) ==
            s.(jointUsed := s.jointUsed || joint,
               allDirect := s.allDirect && TaskDirect(Current(sc, s), CurrentNotes(sc, s), source) && !joint)
  {}

  /** The end of the whole scenario. */
  function Ended(f: LifeState): LifeState {
    var outcome := if f.allDirect && !f.jointUsed then Home.Taught else Home.Supported;
    f.(completed := true, outcome := Some(outcome), reward := outcome == Home.Taught)
  }

  /** Ends the scenario or enters the next task. */
  function Proceed(sc: Scenario, f: LifeState): (r: Result<LifeState, LifeError>)
    requires Placed(sc, f)
    ensures r.Ok? ==> Placed(sc, r.value) && r.value.notes == f.notes
  {
    if f.index + 1 >= |sc.stages| then Ok(Ended(f))
    else
      match NextVariant(sc, f)
      case None => Err(SelectorFailed)
      case Some(v) => Ok(MoveOn(sc, f, v))
  }

  /** `_complete_state` */
  function CompleteTask(sc: Scenario, s: LifeState, source: Source): (r: Result<LifeState, LifeError>)
    requires Placed(sc, s)
    ensures r.Ok? ==> Placed(sc, r.value) && r.value.notes == s.notes
  {
    Proceed(sc, Credited(sc, s, source))
  }

  lemma NotesKeepPlaced(sc: Scenario, s: LifeState, notes: map<string, NoteState>)
    requires Placed(sc, s) && notes.Keys == s.notes.Keys
    ensures Placed(sc, s.(notes := notes))
  {}

  lemma UniqueStages(sc: Scenario)
    requires sc.UniqueTasks()
    ensures forall a, b | a in sc.stages && b in sc.stages :: a.taskId == b.taskId ==> a == b
  {
    forall a, b | a in sc.stages && b in sc.stages && a != b ensures a.taskId != b.taskId {
      var i :| 0 <= i < |sc.stages| && sc.stages[i] == a;
      var j :| 0 <= j < |sc.stages| && sc.stages[j] == b;
      assert if i < j then sc.Apart(i, j) else sc.Apart(j, i);
    }
  }

  function ProjectIn(sc: Scenario, s: LifeState, p: Projection): Option<Json>
    requires Placed(sc, s)
  {
    match FindStage(sc.stages, p.task)
    case None => None
    case Some(st) => Project(PackOf(sc, s, st), s.ledgers[st.taskId], p)
  }

  /** The facts of the listed projections; one that raises spoils all. */
  function FactsOf(sc: Scenario, s: LifeState, ps: seq<Projection>): Option<map<string, Json>>
    requires Placed(sc, s)
  {
    if ps == [] then Some(map[])
    else
      var last := ps[|ps| - 1];
      match (FactsOf(sc, s, ps[..|ps| - 1]), ProjectIn(sc, s, last))
      case (Some(facts), Some(v)) => Some(facts[last.key := v])
      case _ => None
  }

  // ----- one turn -----

  /** `_apply_execution`: policy, ledger and provenance of the current task. */
  function Absorb(sc: Scenario, s: LifeState, sem: Semantics): (m: LifeState)
    requires Placed(sc, s)
    ensures Placed(sc, m)
  {
    var t := TaskId(sc, s);
    var ladder := Policy(s.ladder, sem);
    s.(ladder := ladder, version := s.version + 1,
       ledgers := s.ledgers[t := sem.applied.Ledger()],
       notes := s.notes[t := Track(Current(sc, s), s.notes[t], sem, s.ladder.hint, ladder.hint)])
  }

  lemma AbsorbIs(sc: Scenario, s: LifeState, sem: Semantics, m: LifeState)
    requires Placed(sc, s)
    requires m.index == s.index && m.completed == s.completed && m.subgoal == s.subgoal && m.active == s.active
    requires m.jointUsed == s.jointUsed && m.allDirect == s.allDirect && m.outcome == s.outcome
    requires m.reward == s.reward && m.facts == s.facts && m.version == s.version + 1
    requires m.ladder == Policy(s.ladder, sem)
    requires m.ledgers == s.ledgers[TaskId(sc, s) := sem.applied.Ledger()]
    requires var n := s.notes[TaskId(sc, s)];
             m.notes == s.notes[TaskId(sc, s) := Track(Current(sc, s), n, sem, s.ladder.hint, m.ladder.hint)]
    ensures Absorb(sc, s, sem) == m
  {
    hide Placed, Policy, Track, Current;
  }

  lemma LadderKeepsPlaced(sc: Scenario, s: LifeState, m: LifeState)
    requires Placed(sc, s) && m == s.(ladder := m.ladder, version := m.version)
    ensures Placed(sc, m) && TaskId(sc, m) == TaskId(sc, s)
  {}

  lemma SameTaskId(sc: Scenario, s: LifeState, m: LifeState)
    requires Placed(sc, s) && Placed(sc, m) && m.index == s.index
    ensures TaskId(sc, m) == TaskId(sc, s)
  {}

  function AskNext(sc: Scenario, s: LifeState): (r: Result<LifeState, LifeError>)
    requires Placed(sc, s)
    ensures r.Ok? ==> Placed(sc, r.value)
  {
    match Ask(Current(sc, s), false, s.ladder.expression, CurrentLedger(sc, s))
    case None => Err(TurnFailed(NoQuestion))
    case Some(q) =>
      Ok(s.(subgoal := q.subgoal, ladder := if s.ladder.expression == L0 then s.ladder.(hint := H3) else s.ladder))
  }

  /** After completion: the finished task's note, then the reported facts or the next task's question. */
  function Deliver(sc: Scenario, finished: LifeState, s: LifeState): (r: Result<LifeState, LifeError>)
    requires Placed(sc, finished) && Placed(sc, s)
    ensures r.Ok? ==> Placed(sc, r.value)
  {
    var t := TaskId(sc, finished);
    var m := s.(notes := s.notes[t := Emit(Current(sc, finished), CurrentLedger(sc, finished), s.notes[t])]);
    if m.completed then
      match FactsOf(sc, m, sc.projections)
      case None => Err(ProjectionFailed)
      case Some(facts) => Ok(m.(facts := Some(facts)))
    else AskNext(sc, m)
  }

  /** Life questions with a copy slot always have their reviewed copy at hand. */
  predicate HasCopy(after: Ladder, sem: Semantics) {
    sem.initialHelp || after.expression in {L2, L0}
  }

  function Conclude(sc: Scenario, s: LifeState, sem: Semantics): (r: Result<LifeState, LifeError>)
    requires Placed(sc, s)
    ensures r.Ok? ==> Placed(sc, r.value)
  {
    var m := Absorb(sc, s, sem);
    if sem.applied.completion.Complete() then
      match CompleteTask(sc, m, sem.source)
      case Err(e) => Err(e)
      case Ok(n) => Deliver(sc, m, n)
    else
      match Ask(Current(sc, m), false, m.ladder.expression, CurrentLedger(sc, m))
      case None => Err(TurnFailed(NoQuestion))
      case Some(q) =>
        match SpeechFailure(Current(sc, m), m.ladder, sem, q.targets, s.ladder.hint, HasCopy(m.ladder, sem))
        case Some(e) => Err(TurnFailed(e))
        case None => AskNext(sc, m)
  }

  function InterpretLife(sc: Scenario, s: LifeState, t: Turn): Result<Semantics, TurnError>
    requires Placed(sc, s)
  {
    Interpret(Current(sc, s), s.ladder, s.subgoal, CurrentLedger(sc, s), t)
  }

  /** A whole turn; an error leaves the stored state as it was. */
  function NextState(sc: Scenario, s: LifeState, t: Turn): (r: Result<LifeState, LifeError>)
    requires Placed(sc, s)
    ensures r.Ok? ==> Placed(sc, r.value)
  {
    match InterpretLife(sc, s, t)
    case Err(e) => Err(TurnFailed(e))
    case Ok(sem) => Conclude(sc, s, sem)
  }

  function DefaultPack(sc: Scenario, st: Stage): (pack: TaskPack)
    requires Runnable(sc) && st in sc.stages
    ensures OneTargetEach(pack)
  {
    assert Wired(sc, st);
    st.variants[st.defaultVariant]
  }

  /** Before the first question: every task at its default variant with an empty ledger. */
  function Start(sc: Scenario): (s: LifeState)
    requires Runnable(sc)
    ensures Placed(sc, s)
  {
    UniqueStages(sc);
    var active := map t | t in sc.TaskIds() :: FindStage(sc.stages, t).value.defaultVariant;
    var ledgers := map t | t in sc.TaskIds() :: EmptyLedger(DefaultPack(sc, FindStage(sc.stages, t).value));
    var notes := map t | t in sc.TaskIds() :: FRESH_NOTES;
    var first := DefaultPack(sc, sc.stages[0]);
    DefaultsInUse(sc, active);
    LifeState(0, EntryLadder(first), false, first.initial.planId, active, ledgers, notes, false, true, None, false,
      None, 1)
  }

  lemma DefaultsInUse(sc: Scenario, active: map<string, string>)
    requires Runnable(sc)
    requires active == map t | t in sc.TaskIds() :: FindStage(sc.stages, t).value.defaultVariant
    ensures forall st {:trigger InUse(active, st)} | st in sc.stages :: InUse(active, st)
  {
    UniqueStages(sc);
    forall st | st in sc.stages ensures InUse(active, st) {
      assert Wired(sc, st);
      assert FindStage(sc.stages, st.taskId) == Some(st);
    }
  }

  /** `initialize_scenario_state` */
  function Initial(sc: Scenario): (r: Result<LifeState, LifeError>)
    requires Runnable(sc)
    ensures r.Ok? ==> Placed(sc, r.value)
  {
    AskNext(sc, Start(sc))
  }

  // ----- the session object -----

  /** The loop over a task's note relations: each one touched this turn is credited to the child or to the support. */
  method SortRelations(pack: TaskPack, n: NoteState, s: Semantics, direct: bool)
    returns (independent: map<string, seq<EvidenceId>>, supported: set<string>)
    ensures independent == Independent(n, Touched(pack.noteRelations, s), s, direct)
    ensures supported == Supports(n, Touched(pack.noteRelations, s), direct)
  {
    hide TurnEvidence, Dedup, Independent, Supports, Touched;
    SortNone(n, s, direct);
    TouchedNone(s);
    independent, supported := n.independent, n.supported;
    assert pack.noteRelations[..0] == [];
    for i := 0 to |pack.noteRelations|
      invariant independent == Independent(n, Touched(pack.noteRelations[..i], s), s, direct)
      invariant supported == Supports(n, Touched(pack.noteRelations[..i], s), direct)
    {
      var r := pack.noteRelations[i];
      assert pack.noteRelations[..i + 1] == pack.noteRelations[..i] + [r];
      TouchedSnoc(pack.noteRelations[..i], r, s);
      SortOne(n, Touched(pack.noteRelations[..i], s), r, s);
      assert Touched(pack.noteRelations[..i], s) + {} == Touched(pack.noteRelations[..i], s);
      var evidence := TurnEvidence(s, r);
      if evidence != [] {
        if direct && r !in supported {
          independent := independent[r := Dedup(evidence)];
        } else if r !in independent {
          supported := supported + {r};
        }
      }
    }
    assert pack.noteRelations[..|pack.noteRelations|] == pack.noteRelations;
  }

  class LifeSession {
    const sc: Scenario
    var index: nat
    var ladder: Ladder
    var completed: bool
    var subgoal: string
    var active: map<string, string>
    var ledgers: map<string, Ledger>
    var notes: map<string, NoteState>
    var jointUsed: bool
    var allDirect: bool
    var outcome: Option<Home.Outcome>
    var reward: bool
    var facts: Option<map<string, Json>>
    var version: nat

    function View(): LifeState
      reads this
    {
      LifeState(index, ladder, completed, subgoal, active, ledgers, notes, jointUsed, allDirect, outcome, reward, facts,
        version)
    }

    constructor (sc: Scenario, s: LifeState)
      ensures View() == s && this.sc == sc
    {
      this.sc := sc;
      index, ladder, completed, subgoal := s.index, s.ladder, s.completed, s.subgoal;
      active, ledgers, notes := s.active, s.ledgers, s.notes;
      jointUsed, allDirect, outcome, reward, facts, version := s.jointUsed, s.allDirect, s.outcome, s.reward, s.facts,
        s.version;
    }

    /** Replaces the ledger of the task under way, and of no other task of the scenario. */
    method StoreLedger(l: Ledger)
      requires Placed(sc, View())
      modifies this`ledgers
      ensures ledgers == old(ledgers)[TaskId(sc, old(View())) := l]
      ensures Placed(sc, View()) && CurrentLedger(sc, View()) == l
      ensures forall st | st in sc.stages && st != sc.stages[index] ::
              st.taskId in ledgers && ledgers[st.taskId] == old(ledgers)[st.taskId]
    {
      UniqueStages(sc);
      hide Wired;
      assert forall st | st in sc.stages :: InUse(active, st);
      ledgers := ledgers[sc.stages[index].taskId := l];
    }

    method TrackNoteProvenance(pack: TaskPack, s: Semantics, beforeHint: HintLevel)
      requires Placed(sc, View())
      modifies this`notes
      ensures var t := TaskId(sc, old(View()));
              notes == old(notes)[t := Track(pack, old(notes)[t], s, beforeHint, ladder.hint)]
    {
      var t := TaskId(sc, View());
      hide Placed, Independent, Supports, Home.Unresolved, Touched;
      var n := notes[t];
      if pack.noteRelations == [] {
        assert notes == notes[t := n];
        return;
      }
      var independent, supported := SortRelations(pack, n, s, Home.DirectTurn(s, beforeHint));
      if beforeHint in {H2, H3} || ladder.hint in {H2, H3} {
        supported := supported + Home.Unresolved(pack, s.applied.Ledger());
      } else {
        assert supported == supported + {};
      }
      notes := notes[t := n.(independent := independent, supported := supported,
                             jointUsed := n.jointUsed || s.source == StructuredJoint)];
    }

    /** The default variant of the next stage, or the one its selector finds. */
    method ChooseVariant() returns (variant: Option<string>)
      requires Placed(sc, View()) && index + 1 < |sc.stages|
      ensures variant == NextVariant(sc, View())
    {
      var next := sc.stages[index + 1];
      if next.selector.None? {
        return Some(next.defaultVariant);
      }
      var sel := next.selector.value;
      assert Wired(sc, next);
      hide OneTargetEach, InUse;
      var source := ledgers[sel.sourceTask];
      if sel.factId !in source.facts {
        return None;
      }
      var key := LookupKey(sc.show, source.facts[sel.factId].value);
      if key !in sel.variants {
        return None;
      }
      return Some(sel.variants[key]);
    }

    method EnterNextTask(variant: string)
      requires Placed(sc, View()) && index + 1 < |sc.stages| && variant in sc.stages[index + 1].variants
      modifies this`index, this`ladder, this`subgoal, this`active, this`ledgers
      ensures View() == MoveOn(sc, old(View()), variant)
    {
      hide Wired, OneTargetEach, InUse;
      var next := sc.stages[index + 1];
      var pack := next.variants[variant];
      active := active[next.taskId := variant];
      ledgers := ledgers[next.taskId := EmptyLedger(pack)];
      index := index + 1;
      ladder := Ladder(pack.entryLevel, H0, 0, 0, 0, 0, H0);
      subgoal := pack.initial.planId;
    }

    method CreditTask(pack: TaskPack, note: NoteState, source: Source)
      modifies this`jointUsed, this`allDirect
      ensures jointUsed == (old(jointUsed) || source == StructuredJoint)
      ensures allDirect == (old(allDirect) && TaskDirect(pack, note, source) && source != StructuredJoint)
    {
      var joint := source == StructuredJoint;
      jointUsed := jointUsed || joint;
      var independent := pack.noteRelations != [] && Elements(pack.noteRelations) <= note.independent.Keys;
      var direct := if pack.noteRelations != [] then independent else source == SonnetLow;
      allDirect := allDirect && direct && !joint;
    }

    method EndScenario()
      modifies this`completed, this`outcome, this`reward
      ensures View() == Ended(old(View()))
    {
      completed := true;
      outcome := Some(if allDirect && !jointUsed then Home.Taught else Home.Supported);
      reward := outcome == Some(Home.Taught);
    }

    method ProceedState() returns (e: Option<LifeError>)
      requires Placed(sc, View())
      modifies this
      ensures match Proceed(sc, old(View()))
              case Ok(n) => e.None? && View() == n
              case Err(error) => e == Some(error)
    {
      hide Runnable, InUse, NextVariant, MoveOn, Ended;
      if index + 1 >= |sc.stages| {
        EndScenario();
        return None;
      }
      var variant := ChooseVariant();
      if variant.None? {
        return Some(SelectorFailed);
      }
      EnterNextTask(variant.value);
      return None;
    }

    method CompleteState(source: Source) returns (e: Option<LifeError>)
      requires Placed(sc, View())
      modifies this
      ensures match CompleteTask(sc, old(View()), source)
              case Ok(n) => e.None? && View() == n
              case Err(error) => e == Some(error)
    {
      var start := View();
      CreditedBy(sc, start, source);
      hide Placed, Current, CurrentNotes, Credited, TaskDirect, Proceed;
      CreditTask(Current(sc, start), CurrentNotes(sc, start), source);
      assert View() == Credited(sc, start, source);
      e := ProceedState();
    }

    method UpdateNote(task: string, pack: TaskPack, l: Ledger)
      requires task in notes
      modifies this`notes
      ensures notes == old(notes)[task := Emit(pack, l, old(notes)[task])]
    {
      var n := notes[task];
      if pack.noteRelations == [] || !(Elements(pack.noteRelations) <= l.relations.Keys) || n.emitted.Some? {
        assert notes == notes[task := n];
        return;
      }
      var independent := Elements(pack.noteRelations) <= n.independent.Keys && !n.jointUsed;
      notes := notes[task := n.(emitted := Some(if independent then ByChild else Coauthored))];
    }

    method CompletionFacts() returns (r: Option<map<string, Json>>)
      requires Placed(sc, View())
      ensures r == FactsOf(sc, View(), sc.projections)
    {
      hide Placed, ProjectIn;
      var result: map<string, Json> := map[];
      for i := 0 to |sc.projections|
        invariant FactsOf(sc, View(), sc.projections[..i]) == Some(result)
      {
        assert sc.projections[..i + 1][..i] == sc.projections[..i];
        var p := sc.projections[i];
        var value := ProjectIn(sc, View(), p);
        if value.None? {
          FactsSpoiled(sc, View(), sc.projections, i + 1);
          return None;
        }
        result := result[p.key := value.value];
      }
      assert sc.projections[..|sc.projections|] == sc.projections;
      r := Some(result);
    }

    method BindQuestion() returns (q: Option<Question>)
      requires Placed(sc, View())
      modifies this`subgoal, this`ladder
      ensures q == Ask(Current(sc, old(View())), false, old(ladder).expression, CurrentLedger(sc, old(View())))
      ensures match AskNext(sc, old(View()))
              case Ok(n) => q.Some? && View() == n
              case Err(e) => q.None? && e == TurnFailed(NoQuestion)
    {
      hide Ask, Runnable, InUse;
      q := Ask(Current(sc, View()), false, ladder.expression, CurrentLedger(sc, View()));
      if q.Some? {
        if ladder.expression == L0 {
          ladder := ladder.(hint := H3);
        }
        subgoal := q.value.subgoal;
      }
    }

    method ApplyLadderPolicy(s: Semantics)
      requires Placed(sc, View())
      modifies this`ladder, this`version
      ensures ladder == Policy(old(ladder), s) && version == old(version) + 1
      ensures Placed(sc, View()) && TaskId(sc, View()) == TaskId(sc, old(View()))
    {
      hide Policy, Placed, TaskId;
      ghost var start := View();
      version := version + 1;
      ladder := Policy(ladder, s);
      LadderKeepsPlaced(sc, start, View());
    }

    method ApplyExecution(s: Semantics)
      requires Placed(sc, View())
      modifies this`ladder, this`ledgers, this`notes, this`version
      ensures View() == Absorb(sc, old(View()), s)
    {
      hide Policy, Track, Placed, Current, CurrentLedger, TaskId, Absorb;
      ghost var start := View();
      var pack := Current(sc, View());
      var beforeHint := ladder.hint;
      ApplyLadderPolicy(s);
      StoreLedger(s.applied.Ledger());
      ghost var stored := View();
      SameTaskId(sc, start, stored);
      TrackNoteProvenance(pack, s, beforeHint);
      AbsorbIs(sc, start, s, View());
    }

    method ConcludeExecution(s: Semantics) returns (e: Option<LifeError>)
      requires Placed(sc, View())
      modifies this
      ensures match Conclude(sc, old(View()), s)
              case Ok(n) => e.None? && View() == n
              case Err(error) => e == Some(error)
    {
      hide Policy, Track, SpeechFailure, Ask, CompleteTask, FactsOf, Emit, AskNext, Absorb;
      hide Runnable, InUse, OneTargetEach, Placed, Current;
      var before := ladder;
      ApplyExecution(s);
      var finished := View();
      var pack := Current(sc, finished);
      if !s.applied.completion.Complete() {
        var q := BindQuestion();
        if q.None? {
          return Some(TurnFailed(NoQuestion));
        }
        var copied := HasCopy(finished.ladder, s);
        var spoken := SpeechFailure(pack, finished.ladder, s, q.value.targets, before.hint, copied);
        return if spoken.Some? then Some(TurnFailed(spoken.value)) else None;
      }
      e := CompleteState(s.source);
      if e.Some? {
        return;
      }
      ghost var moved := View();
      UpdateNote(TaskId(sc, finished), pack, CurrentLedger(sc, finished));
      assert View() == moved.(notes := notes);
      NotesKeepPlaced(sc, moved, notes);
      if completed {
        var reported := CompletionFacts();
        if reported.None? {
          return Some(ProjectionFailed);
        }
        facts := reported;
      } else {
        var q := BindQuestion();
        if q.None? {
          return Some(TurnFailed(NoQuestion));
        }
      }
    }

    /** Runs a turn on a copy: the caller's state survives an error. */
    method RunTurn(t: Turn) returns (r: Result<LifeSession, LifeError>)
      requires Placed(sc, View())
      ensures match NextState(sc, View(), t)
              case Ok(n) => r.Ok? && r.value.View() == n && r.value.sc == sc && fresh(r.value)
              case Err(e) => r == Err(e)
    {
      hide Interpret, Conclude;
      var before := View();
      var interpreted := InterpretLife(sc, before, t);
      if interpreted.Err? {
        return Err(TurnFailed(interpreted.error));
      }
      var next := new LifeSession(sc, before);
      var failure := next.ConcludeExecution(interpreted.value);
      if failure.Some? {
        return Err(failure.value);
      }
      return Ok(next);
    }
  }

  lemma {:induction false} FactsSpoiled(sc: Scenario, s: LifeState, ps: seq<Projection>, n: nat)
    requires Placed(sc, s) && n <= |ps| && FactsOf(sc, s, ps[..n]).None?
    ensures FactsOf(sc, s, ps).None?
    decreases |ps| - n
  {
    if n == |ps| {
      assert ps[..n] == ps;
    } else {
      assert ps[..n + 1][..n] == ps[..n];
      FactsSpoiled(sc, s, ps, n + 1);
    }
  }
}
