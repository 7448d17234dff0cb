/** Reviewed teaching content: one task pack of the home or the life engine.
    The graph's fact and relation lists have unique ids, so they are kept as a map and a set. */
module Content {
  import opened Common

  /** Python's `int | float`; `1 == 1.0` holds there although the JSON texts differ. */
  datatype Num = IntNum(i: int) | FloatNum(r: real)

  function RealOf(n: Num): real {
    match n
    case IntNum(i) => i as real
    case FloatNum(r) => r
  }

  datatype Value =
    | Money(amount: Num, currency: string)
    | Number(number: Num, unit: Option<string>)
    | Text(text: string)
    | Boolean(flag: bool)
    | ChoiceOf(choice: string)

  /** Equality of two canonical values as Python compares them. */
  predicate SameValue(a: Value, b: Value) {
    match (a, b)
    case (Money(m, c), Money(n, d)) => RealOf(m) == RealOf(n) && c == d
    case (Number(m, u), Number(n, v)) => RealOf(m) == RealOf(n) && u == v
    case (Text(s), Text(t)) => s == t
    case (Boolean(x), Boolean(y)) => x == y
    case (ChoiceOf(x), ChoiceOf(y)) => x == y
    case _ => false
  }

  /** Home facts have one canonical value; life facts may list further accepted values, and
      compare canonical JSON, where `1` and `1.0` differ. */
  datatype Acceptance = HomeFact | LifeFact(alternatives: seq<Value>)

  /** `plainLabel`: the fact's label, read for numerals, names no number but the fact's own value. No validator of a
      pack demands it. */
  datatype Fact = Fact(value: Value, acceptance: Acceptance, milestone: bool, visible: bool, plainLabel: bool)
  {
    predicate Accepts(v: Value) {
      match acceptance
      case HomeFact => SameValue(v, value)
      case LifeFact(alternatives) => v == value || v in alternatives
    }
  }

  lemma OwnValueAccepted(f: Fact)
    ensures f.Accepts(f.value)
  {}

  datatype TargetKind = FactTarget | RelationTarget

  datatype Key = TargetKey(kind: TargetKind, id: string)

  datatype AskKind = Answer | ReasonOrMethod

  datatype Target = Target(key: Key, ask: AskKind)

  datatype QuestionPlan = QuestionPlan(planId: string, targets: seq<Target>)

  datatype SlotPurpose = InitialHelp | L2Question | L0Intro | L0Action

  datatype CopySlot = CopySlot(name: string, purpose: SlotPurpose, targets: seq<Target>)

  ghost predicate UniqueFactIds(values: seq<(string, Value)>) {
    forall i, j :: 0 <= i < j < |values| ==> values[i].0 != values[j].0
  }

  /** What choosing an option does: the fact values and relations it verifies, when correct. */
  datatype Effect = Effect(correct: bool, facts: seq<(string, Value)>, relations: seq<string>)

  datatype Choice = Choice(choiceId: string, disabled: bool, effect: Effect)

  datatype L2Plan = L2Plan(planId: string, target: Target, copySlot: string, choices: seq<Choice>)

  datatype JointCompletion = JointFact(factId: string, value: Value) | JointRelation(relationId: string)
  {
    function Covers(): Key {
      match this
      case JointFact(f, _) => TargetKey(FactTarget, f)
      case JointRelation(r) => TargetKey(RelationTarget, r)
    }
  }

  datatype Binding = Binding(packId: string, version: int, hash: string)

  datatype ExpressionLevel = L4 | L3 | L2 | L0

  datatype HintLevel = H0 | H1 | H2 | H3

  datatype TaskPack = TaskPack(
    binding: Binding,
    facts: map<string, Fact>,
    relations: set<string>,
    requiredFacts: seq<string>,
    requiredRelations: seq<string>,
    initial: QuestionPlan,
    l3Plans: seq<QuestionPlan>,
    l2Plans: seq<L2Plan>,
    copySlots: seq<CopySlot>,
    joint: seq<JointCompletion>,
    noteRelations: seq<string>,
    h3Relations: set<string>,
    entryLevel: ExpressionLevel)
  {
    /** Every graph target whose verification completes the task. */
    function Required(): set<Key> {
      (set f | f in requiredFacts :: TargetKey(FactTarget, f))
        + (set r | r in requiredRelations :: TargetKey(RelationTarget, r))
    }

    predicate Known(k: Key) {
      match k.kind
      case FactTarget => k.id in facts
      case RelationTarget => k.id in relations
    }

    /** Completion ids are duplicate-free and name graph members. */
    ghost predicate ValidCompletion() {
      && requiredFacts != []
      && Unique(requiredFacts) && Unique(requiredRelations)
      && (forall f | f in requiredFacts :: f in facts)
      && (forall r | r in requiredRelations :: r in relations)
    }

    /** Question coverage both engines' validators demand: the opening question, the L3 plans and the L2 plans
        each cover exactly the required targets, one L3 and one L2 plan per target, compared by (kind, id). */
    ghost predicate ValidQuestions() {
      && (set t | t in initial.targets :: t.key) == Required()
      && (forall p | p in l3Plans :: |p.targets| == 1)
      && (forall p | p in l3Plans :: p.targets[0].key in Required())
      && (forall k | k in Required() :: exists p | p in l3Plans :: p.targets[0].key == k)
      && (forall i, j :: 0 <= i < j < |l3Plans| ==> l3Plans[i].targets[0].key != l3Plans[j].targets[0].key)
      && (forall p | p in l2Plans :: p.target.key in Required())
      && (forall k | k in Required() :: exists p | p in l2Plans :: p.target.key == k)
      && (forall i, j :: 0 <= i < j < |l2Plans| ==> l2Plans[i].target.key != l2Plans[j].target.key)
    }

    ghost predicate ValidSlots() {
      && (exists s | s in copySlots :: s.purpose == InitialHelp)
      && (exists s | s in copySlots :: s.purpose == L0Intro)
      && (exists s | s in copySlots :: s.purpose == L0Action)
      && (forall p | p in l2Plans :: exists s | s in copySlots :: s.name == p.copySlot)
    }

    /** Correct choices verify their plan's target and only reviewed truth; every plan has a correct enabled choice. */
    ghost predicate ValidChoices() {
      && (forall p, c | p in l2Plans && c in p.choices && c.effect.correct :: ValidEffect(p.target.key, c.effect))
      && (forall p | p in l2Plans :: exists c | c in p.choices :: c.effect.correct && !c.disabled)
      && (forall p | p in l2Plans :: forall i, j :: 0 <= i < j < |p.choices| ==>
           p.choices[i].choiceId != p.choices[j].choiceId)
    }

    /** Checked for home packs only: the stored subgoal then names one L2 plan. */
    ghost predicate UniquePlanIds() {
      forall i, j :: 0 <= i < j < |l2Plans| ==> l2Plans[i].planId != l2Plans[j].planId
    }

    ghost predicate ValidEffect(k: Key, e: Effect) {
      && ValidFactValues(e.facts)
      && Unique(e.relations)
      && (forall r | r in e.relations :: r in relations)
      && (match k.kind
          case FactTarget => exists u | u in e.facts :: u.0 == k.id
          case RelationTarget => k.id in e.relations)
    }

    ghost predicate ValidFactValues(values: seq<(string, Value)>) {
      && UniqueFactIds(values)
      && (forall u | u in values :: u.0 in facts && facts[u.0].Accepts(u.1))
    }

    /** The joint plan covers each required target exactly once, with reviewed values. */
    ghost predicate ValidJoint() {
      && (forall i, j :: 0 <= i < j < |joint| ==> joint[i].Covers() != joint[j].Covers())
      && (set c | c in joint :: c.Covers()) == Required()
      && (forall c | c in joint && c.JointFact? :: c.factId in facts && facts[c.factId].Accepts(c.value))
    }

    ghost predicate ValidNotes() {
      && (forall r | r in noteRelations :: r in relations)
    }

    /** The part of the pack contract on which the turn engine relies. */
    ghost predicate Valid() {
      && ValidCompletion() && ValidQuestions() && ValidSlots() && ValidChoices() && ValidJoint() && ValidNotes()
    }
  }

  lemma RequiredKnown(pack: TaskPack, k: Key)
    requires pack.ValidCompletion() && k in pack.Required()
    ensures pack.Known(k)
  {}
}
