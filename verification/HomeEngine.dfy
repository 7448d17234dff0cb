/** The home-teaching engine: one conversation about one pack, as a mutable session and as a function of its state. */
module HomeEngine {
  import opened Common
  import opened Content
  import opened Ledgers
  import opened LedgerOperations
  import opened Ladders
  import opened Questions
  import opened Turns
  import opened Json

  datatype Outcome = Taught | Supported

  datatype State = State(
    ladder: Ladder,
    completed: bool,
    subgoal: string,
    ledger: Ledger,
    childNotes: set<string>,
    supportedNotes: set<string>,
    jointUsed: bool,
    allDirect: bool,
    outcome: Option<Outcome>,
    reward: bool,
    version: nat)

  /** The first help asks about one required target. */
  ghost predicate HelpsOnce(pack: TaskPack) {
    forall s | s in pack.copySlots && s.purpose == InitialHelp ::
      |s.targets| == 1 && s.targets[0].key in pack.Required()
  }

  ghost predicate HomeChoices(pack: TaskPack) {
    forall p, c | p in pack.l2Plans && c in p.choices && c.effect.correct :: HomeChoice(pack, p.target.key, c.effect)
  }

  /** A home pack: the shared contract, opening targets without repetition, plan ids unique across plans, and home
      choices. */
  ghost predicate HomeValid(pack: TaskPack) {
    && pack.Valid() && pack.UniquePlanIds()
    && |pack.initial.targets| <= 4 && DistinctKeys(pack.initial.targets)
    && HelpsOnce(pack) && HomeChoices(pack)
    && (forall r | r in pack.noteRelations :: r in pack.h3Relations)
  }

  /** The effect of a home choice: a fact choice verifies its value, a method choice every note relation with it. */
  function HomeEffect(pack: TaskPack, target: Key, correct: bool, value: Value): Effect {
    match target.kind
    case FactTarget => Effect(correct, [(target.id, value)], [])
    case RelationTarget => Effect(correct, [], Dedup([target.id] + pack.noteRelations))
  }

  predicate HomeChoice(pack: TaskPack, target: Key, e: Effect) {
    match target.kind
    case FactTarget => |e.facts| == 1 && e == HomeEffect(pack, target, true, e.facts[0].1)
    case RelationTarget => e.correct && e.facts == [] && e.relations == Dedup([target.id] + pack.noteRelations)
  }

  /** Reviewed home choices satisfy the shared choice contract. */
  lemma HomeEffectIsValid(pack: TaskPack, target: Key, value: Value)
    requires pack.ValidNotes() && pack.Known(target)
    requires target.kind == FactTarget ==> pack.facts[target.id].Accepts(value)
    ensures pack.ValidEffect(target, HomeEffect(pack, target, true, value))
  {
    var e := HomeEffect(pack, target, true, value);
    match target.kind
    case FactTarget =>
      assert e.facts[0] in e.facts;
    case RelationTarget =>
      var listed := [target.id] + pack.noteRelations;
      forall r | r in e.relations ensures r in pack.relations {
        assert r in Elements(e.relations) && r in Elements(listed);
      }
      assert listed[0] in Elements(listed) && target.id in Elements(e.relations);
  }

  // ----- note provenance -----

  predicate DirectTurn(s: Semantics, beforeHint: HintLevel) {
    s.source == SonnetLow && beforeHint in {H0, H1}
  }

  function Notes(pack: TaskPack, ids: seq<string>): set<string> {
    set r | r in ids && r in pack.noteRelations
  }

  lemma NotesSnoc(pack: TaskPack, ids: seq<string>, r: string)
    ensures Notes(pack, ids + [r]) == Notes(pack, ids) + (if r in pack.noteRelations then {r} else {})
  {}

  function NewNotes(pack: TaskPack, s: Semantics): set<string> {
    Notes(pack, s.applied.progress.newRelations)
  }

  function Unresolved(pack: TaskPack, l: Ledger): set<string> {
    set r | r in pack.noteRelations && r !in l.relations
  }

  /** Note relations credited to the child after the turn. */
  function ChildNotes(pack: TaskPack, child: set<string>, supported: set<string>, s: Semantics,
      beforeHint: HintLevel): set<string>
  {
    if DirectTurn(s, beforeHint) then child + (NewNotes(pack, s) - supported) else child
  }

  /** Note relations that count as learned with support after the turn. */
  function SupportedNotes(pack: TaskPack, child: set<string>, supported: set<string>, s: Semantics,
                          beforeHint: HintLevel, afterHint: HintLevel): set<string> {
    (if DirectTurn(s, beforeHint) then supported else supported + (NewNotes(pack, s) - child))
    + (if beforeHint in {H2, H3} || afterHint in {H2, H3} then Unresolved(pack, s.applied.Ledger()) else {})
  }

  // ----- one turn -----

  function Finished(pack: TaskPack, s: State, source: Source): State {
    var joint := s.jointUsed || source == StructuredJoint;
    var independent := Elements(pack.noteRelations) <= s.childNotes;
    var outcome := if independent && !joint then Taught else Supported;
    s.(jointUsed := joint, allDirect := independent, completed := true, outcome := Some(outcome),
       reward := outcome == Taught)
  }

  /** `_apply_execution`: policy, ledger and note provenance. */
  function Absorb(pack: TaskPack, s: State, sem: Semantics): State {
    var ladder := Policy(s.ladder, sem);
    s.(ladder := ladder, ledger := sem.applied.Ledger(), version := s.version + 1,
       childNotes := ChildNotes(pack, s.childNotes, s.supportedNotes, sem, s.ladder.hint),
       supportedNotes := SupportedNotes(pack, s.childNotes, s.supportedNotes, sem, s.ladder.hint, ladder.hint))
  }

  /** Binds the next question: its subgoal, and H3 at L0. */
  function AskNext(pack: TaskPack, s: State): Result<State, TurnError>
    requires forall p | p in pack.l3Plans :: |p.targets| == 1
  {
    match Ask(pack, s.completed, s.ladder.expression, s.ledger)
    case None => Err(NoQuestion)
    case Some(q) =>
      if s.completed then Ok(s)
      else Ok(s.(subgoal := q.subgoal, ladder := if s.ladder.expression == L0 then s.ladder.(hint := H3) else s.ladder))
  }

  /** Stable copy is prewarmed for one step of the ladder per kind of question; on other steps the speaker is asked. */
  predicate Prewarmed(before: Ladder, after: Ladder, sem: Semantics) {
    if sem.initialHelp then
      before.expression == L4 && before.hint == H0 && after.expression == L3 && after.hint == H1
    else
      || (before.expression == L3 && before.hint == H1 && after.expression == L2 && after.hint == H2)
      || (before.expression == L2 && before.hint == H2 && after.expression == L0 && after.hint == H3)
  }

  /** The steps after interpretation: apply, then complete or ask and speak. */
  function Conclude(pack: TaskPack, s: State, sem: Semantics): Result<State, TurnError>
    requires forall p | p in pack.l3Plans :: |p.targets| == 1
  {
    var m := Absorb(pack, s, sem);
    if sem.applied.completion.Complete() then Ok(Finished(pack, m, sem.source))
    else
      match Ask(pack, m.completed, m.ladder.expression, m.ledger)
      case None => Err(NoQuestion)
      case Some(q) =>
        match SpeechFailure(pack, m.ladder, sem, q.targets, s.ladder.hint, Prewarmed(s.ladder, m.ladder, sem))
        case Some(e) => Err(e)
        case None => AskNext(pack, m)
  }

  /** A whole turn; an error leaves the stored state as it was. */
  function NextState(pack: TaskPack, s: State, t: Turn): Result<State, TurnError>
    requires forall p | p in pack.l3Plans :: |p.targets| == 1
  {
    match Interpret(pack, s.ladder, s.subgoal, s.ledger, t)
    case Err(e) => Err(e)
    case Ok(sem) => Conclude(pack, s, sem)
  }

  /** `initialize_state` at a learner's expression level. */
  function Initial(pack: TaskPack, level: ExpressionLevel): Result<State, TurnError>
    requires forall p | p in pack.l3Plans :: |p.targets| == 1
  {
    AskNext(pack, State(Ladder(level, H0, 0, 0, 0, 0, H0), false, pack.initial.planId, EmptyLedger(pack),
                        {}, {}, false, true, None, false, 1))
  }

  /** The first help asks about one known target. */
  lemma HelpIsOneTarget(pack: TaskPack)
    requires HomeValid(pack)
    ensures |HelpTargets(pack)| == 1 && pack.Known(HelpTargets(pack)[0].key)
  {
    hide TaskPack.ValidQuestions, TaskPack.ValidChoices, TaskPack.ValidJoint, TaskPack.ValidNotes, TaskPack.Required,
         TaskPack.Known;
    RequiredKnown(pack, HelpTargets(pack)[0].key);
  }

  lemma ValidAsksOne(pack: TaskPack)
    requires HomeValid(pack)
    ensures forall p | p in pack.l3Plans :: |p.targets| == 1
  {}

  // ----- the session object -----

  class Session {
    var expression: ExpressionLevel
    var hint: HintLevel
    var expressionFailures: nat
    var conceptFailures: nat
    var vague: nat
    var unrelated: nat
    var maxHint: HintLevel
    var completed: bool
    var subgoal: string
    var ledger: Ledger
    var childNotes: set<string>
    var supportedNotes: set<string>
    var jointUsed: bool
    var allDirect: bool
    var outcome: Option<Outcome>
    var reward: bool
    var version: nat

    function LadderView(): Ladder
      reads this
    {
      Ladder(expression, hint, expressionFailures, conceptFailures, vague, unrelated, maxHint)
    }

    function View(): State
      reads this
    {
      State(LadderView(), completed, subgoal, ledger, childNotes, supportedNotes, jointUsed, allDirect, outcome, reward,
        version)
    }

    constructor (s: State)
      ensures View() == s
    {
      expression, hint := s.ladder.expression, s.ladder.hint;
      expressionFailures, conceptFailures := s.ladder.expressionFailures, s.ladder.conceptFailures;
      vague, unrelated, maxHint := s.ladder.vague, s.ladder.unrelated, s.ladder.maxHint;
      completed, subgoal, ledger := s.completed, s.subgoal, s.ledger;
      childNotes, supportedNotes := s.childNotes, s.supportedNotes;
      jointUsed, allDirect, outcome, reward, version := s.jointUsed, s.allDirect, s.outcome, s.reward, s.version;
    }

    method RaiseHintLevel()
      modifies this`hint, this`expression, this`maxHint
      ensures LadderView() == RaiseHint(old(LadderView()))
    {
      if hint == H0 {
        hint := H1;
      } else if hint == H1 {
        hint := H2;
      } else if hint == H2 {
        hint := H3;
        expression := L0;
      }
      if expression == L0 {
        hint := H3;
      }
      if HintRank(maxHint) < HintRank(hint) {
        maxHint := hint;
      }
    }

    method LowerExpressionLevel()
      modifies this`hint, this`expression, this`maxHint, this`expressionFailures
      ensures LadderView() == LowerExpression(old(LadderView()))
    {
      expressionFailures := expressionFailures + 1;
      expression := Lower(expression);
      if expression == L0 {
        hint := H3;
        maxHint := H3;
      }
    }

    method ApplyLadderPolicy(s: Semantics)
      modifies this`hint, this`expression, this`maxHint, this`expressionFailures, this`conceptFailures, this`vague,
               this`unrelated
      ensures LadderView() == Policy(old(LadderView()), s)
    {
      if s.source == DeterministicFallback {
        return;
      }
      if s.applied.NewCanonical() {
        expressionFailures := 0;
        conceptFailures := 0;
        vague := 0;
        unrelated := 0;
        if s.AsksForSupport() {
          RaiseHintLevel();
        }
        return;
      }
      if s.applied.NewPartial() {
        vague := 0;
        unrelated := 0;
        if expression == L4 {
          expression := L3;
        }
        return;
      }
      if s.AsksForSupport() {
        vague := 0;
        RaiseHintLevel();
        return;
      }
      if s.Sociable() {
        unrelated := unrelated + 1;
        return;
      }
      if s.source == AsrEmpty {
        return;
      }
      if s.source == SilenceTimeout || s.response.support == ExpressionNeed {
        LowerExpressionLevel();
        return;
      }
      if s.response.support == GeneralHelp {
        LowerExpressionLevel();
        RaiseHintLevel();
        return;
      }
      if s.response.support in {ConceptNeed, BothNeeds} || s.HasIncorrect() {
        conceptFailures := conceptFailures + 1;
        RaiseHintLevel();
        return;
      }
      if vague == 0 {
        vague := 1;
      } else {
        vague := 0;
        LowerExpressionLevel();
      }
    }

    method TrackNoteProvenance(pack: TaskPack, s: Semantics, beforeHint: HintLevel)
      requires Unique(s.applied.progress.newRelations)
      modifies this`childNotes, this`supportedNotes
      ensures childNotes == ChildNotes(pack, old(childNotes), old(supportedNotes), s, beforeHint)
      ensures supportedNotes == SupportedNotes(pack, old(childNotes), old(supportedNotes), s, beforeHint, hint)
    {
      var direct := DirectTurn(s, beforeHint);
      var added := s.applied.progress.newRelations;
      ghost var child, supported := childNotes, supportedNotes;
      for i := 0 to |added|
        invariant direct ==> supportedNotes == supported && childNotes == child + (Notes(pack, added[..i]) - supported)
        invariant !direct ==> childNotes == child && supportedNotes == supported + (Notes(pack, added[..i]) - child)
        invariant hint == old(hint)
      {
        var r := added[i];
        assert added[..i + 1] == added[..i] + [r];
        NotesSnoc(pack, added[..i], r);
        if r in pack.noteRelations {
          if direct && r !in supportedNotes {
            childNotes := childNotes + {r};
          } else if r !in childNotes {
            supportedNotes := supportedNotes + {r};
          }
        }
      }
      assert added[..|added|] == added;
      if beforeHint in {H2, H3} || hint in {H2, H3} {
        supportedNotes := supportedNotes + Unresolved(pack, s.applied.Ledger());
      }
    }

    method ApplyExecution(pack: TaskPack, s: Semantics)
      requires Unique(s.applied.progress.newRelations)
      modifies this
      ensures View() == Absorb(pack, old(View()), s)
    {
      hide Policy, ChildNotes, SupportedNotes;
      ghost var start := View();
      var beforeHint := hint;
      version := version + 1;
      ApplyLadderPolicy(s);
      ledger := s.applied.Ledger();
      ghost var ladder := LadderView();
      ghost var m := View();
      assert m == start.(ladder := ladder, ledger := s.applied.Ledger(), version := start.version + 1);
      TrackNoteProvenance(pack, s, beforeHint);
      assert View() == m.(childNotes := childNotes, supportedNotes := supportedNotes);
    }

    method CompleteState(pack: TaskPack, source: Source)
      modifies this`jointUsed, this`allDirect, this`completed, this`outcome, this`reward
      ensures View() == Finished(pack, old(View()), source)
    {
      hide Elements;
      jointUsed := jointUsed || source == StructuredJoint;
      var independent := Elements(pack.noteRelations) <= childNotes;
      allDirect := independent;
      completed := true;
      outcome := Some(if independent && !jointUsed then Taught else Supported);
      reward := outcome == Some(Taught);
    }

    method BindQuestion(pack: TaskPack) returns (q: Option<Question>)
      requires forall p | p in pack.l3Plans :: |p.targets| == 1
      modifies this`subgoal, this`hint
      ensures q == Ask(pack, old(completed), old(expression), old(ledger))
      ensures match AskNext(pack, old(View()))
              case Ok(n) => q.Some? && View() == n
              case Err(_) => q.None?
    {
      q := Ask(pack, completed, expression, ledger);
      if q.Some? && !completed {
        if expression == L0 {
          hint := H3;
        }
        subgoal := q.value.subgoal;
      }
    }

    /** Completes, or asks and speaks. */
    method ConcludeExecution(pack: TaskPack, s: Semantics, ghost start: State) returns (e: Option<TurnError>)
      requires forall p | p in pack.l3Plans :: |p.targets| == 1
      requires Unique(s.applied.progress.newRelations) && View() == start
      modifies this
      ensures match Conclude(pack, start, s)
              case Ok(n) => e.None? && View() == n
              case Err(error) => e == Some(error)
    {
      var before := LadderView();
      ApplyExecution(pack, s);
      if s.applied.completion.Complete() {
        CompleteState(pack, s.source);
        return None;
      }
      var policy := LadderView();
      var q := BindQuestion(pack);
      if q.None? {
        return Some(NoQuestion);
      }
      return SpeechFailure(pack, policy, s, q.value.targets, before.hint, Prewarmed(before, policy, s));
    }

    /** Runs a turn on a copy, as the engine does: the caller's state survives an error. */
    method RunTurn(pack: TaskPack, t: Turn) returns (r: Result<Session, TurnError>)
      requires HomeValid(pack) && Usable(pack, ledger)
      ensures match NextState(pack, View(), t)
              case Ok(n) => r.Ok? && r.value.View() == n && fresh(r.value)
              case Err(e) => r == Err(e)
    {
      hide TaskPack.Valid, Interpret, Conclude, Usable;
      var before := View();
      ValidAsksOne(pack);
      var interpreted := Interpret(pack, before.ladder, subgoal, ledger, t);
      if interpreted.Err? {
        return Err(interpreted.error);
      }
      InterpretIsSound(pack, before.ladder, subgoal, ledger, t);
      var next := new Session(before);
      var failure := next.ConcludeExecution(pack, interpreted.value, before);
      if failure.Some? {
        return Err(failure.value);
      }
      return Ok(next);
    }
  }
}
