/** Which values a turn can write for a fact, and which L2 plan is on screen when it can. */
module WritableValues {
  import opened Common
  import opened Content
  import opened Ledgers
  import opened LedgerOperations
  import opened Ladders
  import opened Questions
  import opened Turns

  // ----- the values -----

  /** An enabled correct choice of the plan writes `v` for fact `f`. */
  ghost predicate ChoiceWrites(plan: L2Plan, f: string, v: Value) {
    exists c :: c in plan.choices && !c.disabled && c.effect.correct && (f, v) in c.effect.facts
  }

  /** The target L2 asks about first when exactly the required targets among `keys` are open and none was tried. */
  function FirstAsked(pack: TaskPack, keys: set<Key>): Option<Key> {
    var ordered := Select(pack.initial.targets, keys);
    match FirstL2Among(pack.l2Plans, ordered)
    case Some(t) => Some(t.key)
    case None => if ordered == [] then None else Some(ordered[0].key)
  }

  /** The question about `k` can be on screen while fact `f` is open: `k` is the fact, or `f` is never asked about, or
      `k` is a relation the child can try first, or `k` comes first anyway. */
  predicate AskedBefore(pack: TaskPack, k: Key, f: string) {
    || k == TargetKey(FactTarget, f)
    || f !in pack.requiredFacts
    || k.kind == RelationTarget
    || FirstAsked(pack, {k, TargetKey(FactTarget, f)}) == Some(k)
  }

  /** The plan whose choices are taken while `q` is on screen: the first one with its id. */
  function PickedPlan(pack: TaskPack, q: L2Plan): L2Plan
    requires q in pack.l2Plans
  {
    FirstL2ById(pack.l2Plans, q.planId).value
  }

  ghost predicate PickWrites(pack: TaskPack, q: L2Plan, f: string, v: Value) {
    q in pack.l2Plans && AskedBefore(pack, q.target.key, f) && ChoiceWrites(PickedPlan(pack, q), f, v)
  }

  /** The values a fact can come to have: its own, through speech; the pinned one, through the joint action; and
      those of the choices that can be on screen while it is open. */
  ghost predicate Writable(pack: TaskPack, f: string, v: Value) {
    f in pack.facts && (v == pack.facts[f].value || JointFact(f, v) in pack.joint || exists q ::
      PickWrites(pack, q, f, v))
  }

  /** A writable value is a reviewed one. */
  lemma WritableIsAccepted(pack: TaskPack, f: string, v: Value)
    requires pack.ValidChoices() && pack.ValidJoint() && Writable(pack, f, v)
    ensures pack.facts[f].Accepts(v)
  {
    OwnValueAccepted(pack.facts[f]);
    if JointFact(f, v) !in pack.joint && v != pack.facts[f].value {
      var q :| PickWrites(pack, q, f, v);
      var p := PickedPlan(pack, q);
      var c :| c in p.choices && !c.disabled && c.effect.correct && (f, v) in c.effect.facts;
      assert pack.ValidEffect(p.target.key, c.effect);
    }
  }

  // ----- nothing else is ever written -----

  lemma {:induction false} FirstAmongFewer(plans: seq<L2Plan>, many: seq<Target>, few: seq<Target>)
    requires forall t | t in few :: t in many
    ensures match FirstL2Among(plans, many)
            case Some(t) => t in few ==> FirstL2Among(plans, few) == Some(t)
            case None => FirstL2Among(plans, few) == None
  {
    if plans != [] {
      FirstAmongFewer(plans[1..], many, few);
    }
  }

  lemma {:induction false} FirstSelected(targets: seq<Target>, many: set<Key>, few: set<Key>)
    requires few <= many && Select(targets, many) != [] && Select(targets, many)[0].key in few
    ensures Select(targets, few) != [] && Select(targets, few)[0] == Select(targets, many)[0]
  {
    if targets != [] && targets[0].key !in many {
      FirstSelected(targets[1..], many, few);
    }
  }

  /** The first target an L2 plan asks about among those open is the first among any fewer that include it. */
  lemma FirstAskedFewer(pack: TaskPack, many: set<Key>, few: set<Key>)
    requires few <= many && FirstAsked(pack, many).Some? && FirstAsked(pack, many).value in few
    ensures FirstAsked(pack, few) == FirstAsked(pack, many)
  {
    var m, n := Select(pack.initial.targets, many), Select(pack.initial.targets, few);
    FirstAmongFewer(pack.l2Plans, m, n);
    if FirstL2Among(pack.l2Plans, m).None? {
      FirstSelected(pack.initial.targets, many, few);
    }
  }

  lemma PlanOfKey(pack: TaskPack, k: Key)
    requires pack.ValidQuestions()
    ensures var r := FirstL2ByKey(pack.l2Plans, {k});
            r.Some? ==> r.value.target.key == k && forall q | q in pack.l2Plans && q.target.key == k :: q == r.value
  {}

  /** The one key L2 asks about. */
  lemma ShownKey(pack: TaskPack, l: Ledger)
    requires pack.ValidQuestions() && ShownPlan(pack, l).Some?
    ensures var k := ShownPlan(pack, l).value.target.key;
            && k in Remaining(pack, l)
            && (k.kind == RelationTarget || FirstAsked(pack, Remaining(pack, l)) == Some(k))
  {
    hide Remaining, TaskPack.ValidQuestions;
    ShownAmongActive(pack, l);
    var ordered := Select(pack.initial.targets, Remaining(pack, l));
    if FirstPartial(ordered, l).Some? {
      FirstPartialIsRelation(ordered, l);
    }
  }

  lemma {:induction false} FirstPartialIsRelation(targets: seq<Target>, l: Ledger)
    ensures var r := FirstPartial(targets, l);
            && (r.Some? ==>
                 r.value.key.kind == RelationTarget && r.value.key.id in l.partials && r.value.key.id !in l.relations)
            && (r.None? ==> forall t | t in targets && t.key.kind == RelationTarget ::
                              t.key.id !in l.partials || t.key.id in l.relations)
  {
    if targets != [] {
      assert targets == [targets[0]] + targets[1..];
      FirstPartialIsRelation(targets[1..], l);
    }
  }

  lemma ShownAmongActive(pack: TaskPack, l: Ledger)
    requires pack.ValidQuestions() && ShownPlan(pack, l).Some?
    ensures var k := ShownPlan(pack, l).value.target.key;
            k in Remaining(pack, l) && exists t | t in ActiveTargets(pack, L2, l) :: t.key == k
  {
    hide Remaining, ActiveTargets;
    ActiveTargetsRemain(pack, L2, l);
  }

  /** Whatever is on screen while a fact is open can be on screen while it is open, in the sense above. */
  lemma ShownBefore(pack: TaskPack, l: Ledger, f: string)
    requires pack.ValidQuestions() && ShownPlan(pack, l).Some? && f !in l.facts
    ensures AskedBefore(pack, ShownPlan(pack, l).value.target.key, f)
  {
    var k := ShownPlan(pack, l).value.target.key;
    ShownKey(pack, l);
    hide TaskPack.ValidQuestions, ShownPlan, FirstAsked;
    if f in pack.requiredFacts && k.kind == FactTarget {
      assert TargetKey(FactTarget, f) in Remaining(pack, l);
      FirstAskedFewer(pack, Remaining(pack, l), {k, TargetKey(FactTarget, f)});
    }
  }

  /** The question on screen is the one the stored subgoal stands for. */
  ghost predicate Asked(pack: TaskPack, expression: ExpressionLevel, subgoal: string, l: Ledger)
    requires forall p | p in pack.l3Plans :: |p.targets| == 1
  {
    var q := Ask(pack, false, expression, l);
    q.Some? && q.value.subgoal == subgoal
  }

  lemma AskedPlan(pack: TaskPack, ladder: Ladder, subgoal: string, l: Ledger)
    requires (forall p | p in pack.l3Plans :: |p.targets| == 1) && ladder.expression == L2
    requires Asked(pack, L2, subgoal, l)
    ensures ShownPlan(pack, l).Some? && ShownPlan(pack, l).value.planId == subgoal
    ensures ActiveL2Plan(pack, ladder, subgoal, l) == Some(PickedPlan(pack, ShownPlan(pack, l).value))
  {
    hide ActiveTargets, CompletionValues;
  }

  lemma SpeechWrites(pack: TaskPack, l: Ledger, g: Guarded, turn: string, f: string)
    requires Apply(pack, l, g, turn).Ok?
    ensures var m := Apply(pack, l, g, turn).value.Ledger();
            f in m.facts && f !in l.facts ==> f in pack.facts && m.facts[f].value == pack.facts[f].value
  {
    hide BoundTo, OneMatchPerClaim, Pairs, CompletionOf, Complete;
    FactVerifiedIff(pack, turn, NoProgress(l), Pairs(g), f);
  }

  lemma StructuredWrites(pack: TaskPack, l: Ledger, values: seq<(string, Value)>, relations: seq<string>, turn: string,
                         source: SourceKind, f: string)
    requires ApplyStructured(pack, l, values, relations, turn, source).Ok?
    ensures var m := ApplyStructured(pack, l, values, relations, turn, source).value.Ledger();
            && (f in m.facts && f !in l.facts ==> (f, m.facts[f].value) in values && f in pack.facts)
            && (f in l.facts ==> f in m.facts && m.facts[f].value == l.facts[f].value)
            && (f in m.facts <==> f in l.facts || exists u | u in values :: u.0 == f)
  {
    hide BoundTo, CompletionOf, Complete;
    FactFoldVerifies(pack, turn, source, NoProgress(l), values, f);
    RelationFoldVerifies(turn, source, FactFold(pack, turn, source, NoProgress(l), values), relations);
  }

  /** Every value a turn writes for a fact is a writable one. */
  lemma TurnWrites(pack: TaskPack, ladder: Ladder, subgoal: string, l: Ledger, t: Turn, f: string)
    requires pack.ValidQuestions() && (forall p | p in pack.l3Plans :: |p.targets| == 1)
    requires Asked(pack, ladder.expression, subgoal, l) && Interpret(pack, ladder, subgoal, l, t).Ok?
    ensures var m := Interpret(pack, ladder, subgoal, l, t).value.applied.Ledger();
            f in m.facts && f !in l.facts ==> Writable(pack, f, m.facts[f].value)
  {
    hide TaskPack.ValidQuestions, Apply, ApplyStructured, ActiveL2Plan, Asked, ShownPlan, CompletionOf, RouteFor,
         AskedBefore;
    var m := Interpret(pack, ladder, subgoal, l, t).value.applied.Ledger();
    match t.input
    case Speech(u) =>
      if u.Admission? { SpeechWrites(pack, l, Guarded(u.response.claims, u.matches), t.id, f); }
    case NoAnswer(_) =>
    case Pick(ids) =>
      AskedPlan(pack, ladder, subgoal, l);
      ShownIsPlan(pack, l);
      var q := ShownPlan(pack, l).value;
      var c := FindChoice(PickedPlan(pack, q).choices, ids[0]).value;
      if c.effect.correct && f in m.facts && f !in l.facts {
        StructuredWrites(pack, l, c.effect.facts, c.effect.relations, t.id, ChoiceSource, f);
        ShownBefore(pack, l, f);
        assert PickWrites(pack, q, f, m.facts[f].value);
      }
    case Action(_) =>
      StructuredWrites(pack, l, JointValues(pack.joint), JointlyPerformed(pack), t.id, JointSource, f);
  }

  lemma ShownIsPlan(pack: TaskPack, l: Ledger)
    requires (forall p | p in pack.l3Plans :: |p.targets| == 1) && ShownPlan(pack, l).Some?
    ensures ShownPlan(pack, l).value in pack.l2Plans
  {
    hide ActiveTargets;
  }

  // ----- bringing a plan on screen -----

  /** The targets left open to bring plan `q` on screen while fact `f` is open. */
  function LeftOpen(pack: TaskPack, q: L2Plan, f: string): set<Key> {
    {q.target.key} + if f in pack.requiredFacts then {TargetKey(FactTarget, f)} else {}
  }

  /** With just these open, and the plan's relation tried if it is one and `f` could come first, the plan is shown. */
  lemma PlanIsShown(pack: TaskPack, q: L2Plan, f: string, l: Ledger)
    requires pack.ValidQuestions() && q in pack.l2Plans && AskedBefore(pack, q.target.key, f)
    requires Remaining(pack, l) == LeftOpen(pack, q, f)
    requires q.target.key.kind == RelationTarget && f in pack.requiredFacts ==> q.target.key.id in l.partials
    ensures ShownPlan(pack, l) == Some(q)
  {
    var k := q.target.key;
    ActiveIs(pack, l, k, f);
    PlanOfKey(pack, k);
    hide TaskPack.ValidQuestions, Remaining, ActiveTargets, AskedBefore;
    var ts := ActiveTargets(pack, L2, l);
    assert ts == [ts[0]] && ts[0] in ts;
    assert Keys(ts) == {k};
  }

  lemma RelationsAreOpen(pack: TaskPack, l: Ledger, k: Key)
    requires k in Remaining(pack, l)
    ensures k.kind == RelationTarget ==> k.id !in l.relations
    ensures k.kind == FactTarget ==> k.id !in l.facts
  {}

  /** A tried relation among the open targets is chosen when it is the only one. */
  lemma TriedIsFirst(pack: TaskPack, l: Ledger, k: Key, f: string, ordered: seq<Target>)
    requires pack.ValidQuestions() && ordered == Select(pack.initial.targets, Remaining(pack, l))
    requires Remaining(pack, l) == {k, TargetKey(FactTarget, f)} && k.kind == RelationTarget && k.id in l.partials
    ensures FirstPartial(ordered, l).Some? && FirstPartial(ordered, l).value.key == k
  {
    RelationsAreOpen(pack, l, k);
    SelectHas(pack, l, k);
    FirstPartialIsRelation(ordered, l);
    hide TaskPack.ValidQuestions, Remaining, FirstPartial, Select;
  }

  /** No fact counts as tried. */
  lemma FactsAreNotTried(pack: TaskPack, l: Ledger, ordered: seq<Target>)
    requires ordered == Select(pack.initial.targets, Remaining(pack, l))
    requires forall k | k in Remaining(pack, l) :: k.kind == FactTarget
    ensures FirstPartial(ordered, l).None?
  {
    FirstPartialIsRelation(ordered, l);
    hide Remaining, FirstPartial, Select;
  }

  lemma ActiveIs(pack: TaskPack, l: Ledger, k: Key, f: string)
    requires pack.ValidQuestions() && (forall p | p in pack.l3Plans :: |p.targets| == 1) && AskedBefore(pack, k, f)
    requires Remaining(pack, l) == {k} + if f in pack.requiredFacts then {TargetKey(FactTarget, f)} else {}
    requires k.kind == RelationTarget && f in pack.requiredFacts ==> k.id in l.partials
    ensures var ts := ActiveTargets(pack, L2, l); |ts| == 1 && ts[0].key == k
  {
    hide TaskPack.ValidQuestions, Remaining, ActiveTargets, FirstPartial, Select, FirstAsked;
    var ordered := Select(pack.initial.targets, Remaining(pack, l));
    SelectHas(pack, l, k);
    OneActive(pack, l, ordered);
    var ts := ActiveTargets(pack, L2, l);
    assert ts[0].key in Remaining(pack, l);
    if f in pack.requiredFacts && k != TargetKey(FactTarget, f) {
      assert Remaining(pack, l) == {k, TargetKey(FactTarget, f)};
      if k.kind == RelationTarget {
        TriedIsFirst(pack, l, k, f, ordered);
      } else {
        FactsAreNotTried(pack, l, ordered);
      }
    }
  }

  /** What L2 chooses among the open targets. */
  lemma OneActive(pack: TaskPack, l: Ledger, ordered: seq<Target>)
    requires (forall p | p in pack.l3Plans :: |p.targets| == 1)
    requires ordered == Select(pack.initial.targets, Remaining(pack, l)) && ordered != []
    ensures var ts := ActiveTargets(pack, L2, l);
            && |ts| == 1 && ts[0] in ordered
            && (FirstPartial(ordered, l).Some? ==> ts[0] == FirstPartial(ordered, l).value)
            && (FirstPartial(ordered, l).None? ==> FirstAsked(pack, Remaining(pack, l)) == Some(ts[0].key))
  {
    hide Remaining, Select;
  }

  lemma SelectHas(pack: TaskPack, l: Ledger, k: Key)
    requires pack.ValidQuestions() && k in Remaining(pack, l)
    ensures exists t | t in Select(pack.initial.targets, Remaining(pack, l)) :: t.key == k
  {
    assert k in (set t | t in pack.initial.targets :: t.key);
    var t :| t in pack.initial.targets && t.key == k;
    assert t in Select(pack.initial.targets, Remaining(pack, l));
  }
}
