/** Which question a state asks next, and exactly when one exists. */
module Questions {
  import opened Common
  import opened Content
  import opened Ledgers
  import opened LedgerOperations
  import opened Json

  datatype InputKind = NoInput | TextInput | ChoiceInput | JointInput

  datatype Question = Question(
    targets: seq<Target>,
    input: InputKind,
    subgoal: string,
    choices: seq<string>,
    completionValues: map<string, Json>,
    slot: Option<CopySlot>)

  // ----- first match in a list -----

  function FirstL3ByTarget(plans: seq<QuestionPlan>, t: Target): (r: Option<QuestionPlan>)
    requires forall p | p in plans :: |p.targets| == 1
    ensures r.Some? ==> r.value in plans && r.value.targets[0] == t
    ensures r.None? ==> forall p | p in plans :: p.targets[0] != t
  {
    if plans == [] then None
    else
      assert plans == [plans[0]] + plans[1..];
      if plans[0].targets[0] == t then Some(plans[0]) else FirstL3ByTarget(plans[1..], t)
  }

  function FirstL3ByKey(plans: seq<QuestionPlan>, keys: set<Key>): (r: Option<QuestionPlan>)
    requires forall p | p in plans :: |p.targets| == 1
    ensures r.Some? ==> r.value in plans && r.value.targets[0].key in keys
    ensures r.None? ==> forall p | p in plans :: p.targets[0].key !in keys
  {
    if plans == [] then None
    else
      assert plans == [plans[0]] + plans[1..];
      if plans[0].targets[0].key in keys then Some(plans[0]) else FirstL3ByKey(plans[1..], keys)
  }

  /** The first L3 plan asking one of `targets`, compared with its ask kind. */
  function FirstL3Among(plans: seq<QuestionPlan>, targets: seq<Target>): (r: Option<Target>)
    requires forall p | p in plans :: |p.targets| == 1
    ensures r.Some? ==> r.value in targets
  {
    if plans == [] then None
    else
      assert plans == [plans[0]] + plans[1..];
      if plans[0].targets[0] in targets then Some(plans[0].targets[0]) else FirstL3Among(plans[1..], targets)
  }

  function FirstL2Among(plans: seq<L2Plan>, targets: seq<Target>): (r: Option<Target>)
    ensures r.Some? ==> r.value in targets
  {
    if plans == [] then None
    else if plans[0].target in targets then Some(plans[0].target)
    else FirstL2Among(plans[1..], targets)
  }

  function FirstL2ByKey(plans: seq<L2Plan>, keys: set<Key>): (r: Option<L2Plan>)
    ensures r.Some? ==> r.value in plans && r.value.target.key in keys
    ensures r.None? ==> forall p | p in plans :: p.target.key !in keys
  {
    if plans == [] then None
    else
      assert plans == [plans[0]] + plans[1..];
      if plans[0].target.key in keys then Some(plans[0]) else FirstL2ByKey(plans[1..], keys)
  }

  function FirstL2ById(plans: seq<L2Plan>, id: string): (r: Option<L2Plan>)
    ensures r.Some? ==> r.value in plans && r.value.planId == id
    ensures r.None? ==> forall p | p in plans :: p.planId != id
  {
    if plans == [] then None
    else
      assert plans == [plans[0]] + plans[1..];
      if plans[0].planId == id then Some(plans[0]) else FirstL2ById(plans[1..], id)
  }

  function FirstSlot(slots: seq<CopySlot>, wanted: CopySlot -> bool): (r: Option<CopySlot>)
    ensures r.Some? <==> exists s | s in slots :: wanted(s)
    ensures r.Some? ==> r.value in slots && wanted(r.value)
  {
    if slots == [] then None
    else
      assert slots == [slots[0]] + slots[1..];
      if wanted(slots[0]) then
        assert slots[0] in slots;
        Some(slots[0])
      else FirstSlot(slots[1..], wanted)
  }

  function SlotFor(slots: seq<CopySlot>, purpose: SlotPurpose): Option<CopySlot> {
    FirstSlot(slots, (s: CopySlot) => s.purpose == purpose)
  }

  function SlotNamed(slots: seq<CopySlot>, name: string): Option<CopySlot> {
    FirstSlot(slots, (s: CopySlot) => s.name == name)
  }

  /** The members of `targets` whose key is in `keys`, in order. */
  function Select(targets: seq<Target>, keys: set<Key>): (r: seq<Target>)
    ensures forall t :: t in r <==> t in targets && t.key in keys
  {
    if targets == [] then []
    else
      assert targets == [targets[0]] + targets[1..];
      var rest := Select(targets[1..], keys);
      if targets[0].key in keys then [targets[0]] + rest else rest
  }

  /** The first relation target already attempted partially but not verified. */
  function FirstPartial(targets: seq<Target>, l: Ledger): (r: Option<Target>)
    ensures r.Some? ==> r.value in targets
  {
    if targets == [] then None
    else if targets[0].key.kind == RelationTarget && targets[0].key.id in l.partials
      && targets[0].key.id !in l.relations then
      Some(targets[0])
    else FirstPartial(targets[1..], l)
  }

  ghost predicate DistinctKeys(targets: seq<Target>) {
    forall i, j :: 0 <= i < j < |targets| ==> targets[i].key != targets[j].key
  }

  function Remaining(pack: TaskPack, l: Ledger): set<Key> {
    pack.Required() - Verified(l)
  }

  /** `_targets_from_active_state` */
  function ActiveTargets(pack: TaskPack, expression: ExpressionLevel, l: Ledger): seq<Target>
    requires forall p | p in pack.l3Plans :: |p.targets| == 1
  {
    var ordered := Select(pack.initial.targets, Remaining(pack, l));
    if ordered == [] || expression in {L4, L0} then ordered
    else
      match FirstPartial(ordered, l)
      case Some(t) => [t]
      case None =>
        match (if expression == L3 then FirstL3Among(pack.l3Plans, ordered) else None)
        case Some(t) => [t]
        case None =>
          match FirstL2Among(pack.l2Plans, ordered)
          case Some(t) => [t]
          case None => [ordered[0]]
  }

  function Keys(targets: seq<Target>): set<Key> {
    set t | t in targets :: t.key
  }

  /** The L2 plan on screen. */
  function ShownPlan(pack: TaskPack, l: Ledger): Option<L2Plan>
    requires forall p | p in pack.l3Plans :: |p.targets| == 1
  {
    FirstL2ByKey(pack.l2Plans, Keys(ActiveTargets(pack, L2, l)))
  }

  /** The active targets are required and unverified; there is one at L2 and L3, and every remaining one at L4 and
      L0. */
  lemma ActiveTargetsRemain(pack: TaskPack, expression: ExpressionLevel, l: Ledger)
    requires pack.ValidQuestions()
    ensures var ts := ActiveTargets(pack, expression, l);
            && Keys(ts) <= Remaining(pack, l)
            && (Remaining(pack, l) != {} ==> ts != [])
            && (expression in {L4, L0} ==> Keys(ts) == Remaining(pack, l))
            && (expression in {L3, L2} && Remaining(pack, l) != {} ==> |ts| == 1)
  {
    var ordered := Select(pack.initial.targets, Remaining(pack, l));
    forall k | k in Remaining(pack, l) ensures k in Keys(ordered) {
      assert k in (set t | t in pack.initial.targets :: t.key);
      var t :| t in pack.initial.targets && t.key == k;
      assert t in ordered;
    }
    assert Keys(ordered) == Remaining(pack, l);
    if ordered == [] {
      assert Keys(ordered) == {};
    } else {
      assert ordered[0] in ordered && ordered[0].key in Keys(ordered);
    }
  }

  // ----- joint-action payload -----

  function Primitive(v: Value): Json {
    match v
    case Money(IntNum(i), _) => JInt(i)
    case Money(FloatNum(r), _) => JFloat(r)
    case Number(IntNum(i), _) => JInt(i)
    case Number(FloatNum(r), _) => JFloat(r)
    case Text(t) => JString(t)
    case Boolean(b) => JBool(b)
    case ChoiceOf(c) => JString(c)
  }

  function KeyText(k: Key): string {
    (match k.kind case FactTarget => "fact:" case RelationTarget => "relation:") + k.id
  }

  function CompletionJson(c: JointCompletion): Json {
    match c
    case JointFact(_, v) => Primitive(v)
    case JointRelation(_) => JBool(true)
  }

  /** The values the joint action must submit. */
  function CompletionValues(joint: seq<JointCompletion>): map<string, Json> {
    if joint == [] then map[]
    else
      var last := joint[|joint| - 1];
      CompletionValues(joint[..|joint| - 1])[KeyText(last.Covers()) := CompletionJson(last)]
  }

  // ----- the question -----

  /** `_question_contract`; `None` stands for a lookup that finds nothing, which raises. */
  function Ask(pack: TaskPack, completed: bool, expression: ExpressionLevel, l: Ledger): Option<Question>
    requires forall p | p in pack.l3Plans :: |p.targets| == 1
  {
    if completed then Some(Question([], NoInput, "", [], map[], None))
    else
      var targets := ActiveTargets(pack, expression, l);
      match expression
      case L0 =>
        (match (SlotFor(pack.copySlots, L0Intro), SlotFor(pack.copySlots, L0Action))
         case (Some(intro), Some(_)) =>
           Some(Question(targets, JointInput, "l0.joint", [], CompletionValues(pack.joint), Some(intro)))
         case _ => None)
      case L2 =>
        (match FirstL2ByKey(pack.l2Plans, Keys(targets))
         case Some(plan) =>
           (match SlotNamed(pack.copySlots, plan.copySlot)
            case Some(slot) => Some(Question([plan.target], ChoiceInput, plan.planId, ChoiceIds(plan.choices), map[],
              Some(slot)))
            case None => None)
         case None => None)
      case L3 =>
        (match FirstL3ByKey(pack.l3Plans, Keys(targets))
         case Some(plan) => Some(Question(plan.targets, TextInput, plan.planId, [], map[], None))
         case None => None)
      case L4 =>
        if |targets| > 1 then Some(Question(targets, TextInput, pack.initial.planId, [], map[], None))
        else if targets == [] then None
        else
          match FirstL3ByTarget(pack.l3Plans, targets[0])
          case Some(plan) => Some(Question(targets, TextInput, plan.planId, [], map[], None))
          case None => None
  }

  function ChoiceIds(choices: seq<Choice>): (r: seq<string>)
    ensures |r| == |choices| && forall i :: 0 <= i < |r| ==> r[i] == choices[i].choiceId
  {
    if choices == [] then [] else [choices[0].choiceId] + ChoiceIds(choices[1..])
  }

  /** How often a target key occurs in the opening question. */
  function Occurrences(targets: seq<Target>, k: Key): nat {
    if targets == [] then 0 else (if targets[0].key == k then 1 else 0) + Occurrences(targets[1..], k)
  }

  /** The pack asks a target the same way at the start and at L3. Validators compare (kind, id) only, so they do not
      guarantee it. Targets the opening question repeats are exempt: they are never asked alone at L4. */
  ghost predicate AsksAgree(pack: TaskPack)
    requires forall p | p in pack.l3Plans :: |p.targets| == 1
  {
    forall t | t in pack.initial.targets && Occurrences(pack.initial.targets, t.key) == 1 ::
      exists p | p in pack.l3Plans :: p.targets[0] == t
  }

  lemma {:induction false} SelectLength(targets: seq<Target>, keys: set<Key>)
    ensures |Select(targets, keys)| == 1 ==>
              var t := Select(targets, keys)[0]; Occurrences(targets, t.key) == 1
    ensures forall k :: k !in keys ==> Occurrences(Select(targets, keys), k) == 0
    ensures forall k :: k in keys ==> Occurrences(Select(targets, keys), k) == Occurrences(targets, k)
  {
    if targets != [] {
      SelectLength(targets[1..], keys);
      var rest := Select(targets[1..], keys);
      var here := [targets[0]] + rest;
      assert here[1..] == rest;
      if targets[0].key in keys {
        assert Select(targets, keys) == here;
        if |here| == 1 {
          assert rest == [];
          assert Occurrences(here, targets[0].key) == 1;
        }
      } else {
        assert Select(targets, keys) == rest;
        if |rest| == 1 {
          assert rest[0] in rest;
          assert targets[0].key != rest[0].key;
        }
      }
    }
  }

  lemma {:induction false} NeverOccurs(targets: seq<Target>, k: Key)
    requires Occurrences(targets, k) == 0
    ensures Select(targets, {k}) == []
    ensures forall t | t in targets :: t.key != k
  {
    if targets != [] {
      assert targets == [targets[0]] + targets[1..];
      NeverOccurs(targets[1..], k);
    }
  }

  lemma {:induction false} OccursOnce(targets: seq<Target>, t: Target)
    requires t in targets && Occurrences(targets, t.key) == 1
    ensures Select(targets, {t.key}) == [t]
  {
    assert targets == [targets[0]] + targets[1..];
    if targets[0].key == t.key {
      NeverOccurs(targets[1..], t.key);
    } else {
      OccursOnce(targets[1..], t);
    }
  }

  /** Whatever is asked while something is missing is asked about unverified required targets only: exactly one at
      L3 and L2, and every missing one at L4 and L0. */
  lemma AskedTargetsRemain(pack: TaskPack, expression: ExpressionLevel, l: Ledger)
    requires pack.ValidQuestions() && Remaining(pack, l) != {}
    ensures var q := Ask(pack, false, expression, l);
            q.Some? ==>
              && q.value.targets != []
              && Keys(q.value.targets) <= Remaining(pack, l)
              && (expression in {L3, L2} ==> |q.value.targets| == 1)
              && (expression in {L4, L0} ==> Keys(q.value.targets) == Remaining(pack, l))
  {
    hide ActiveTargets, Remaining, CompletionValues;
    ActiveTargetsRemain(pack, expression, l);
    var ts := ActiveTargets(pack, expression, l);
    match Ask(pack, false, expression, l)
    case None =>
    case Some(q) =>
      if expression == L3 {
        var plan := FirstL3ByKey(pack.l3Plans, Keys(ts)).value;
        assert q.targets == [plan.targets[0]];
      }
  }

  lemma SomeTargetRemains(pack: TaskPack, expression: ExpressionLevel, l: Ledger) returns (k: Key)
    requires pack.ValidQuestions() && Remaining(pack, l) != {}
    ensures k in Keys(ActiveTargets(pack, expression, l)) && k in pack.Required()
  {
    ActiveTargetsRemain(pack, expression, l);
    var ts := ActiveTargets(pack, expression, l);
    assert ts[0] in ts;
    k := ts[0].key;
  }

  /** Below L4 a question can always be asked. */
  lemma LowerLevelsAlwaysAsk(pack: TaskPack, expression: ExpressionLevel, l: Ledger)
    requires pack.ValidQuestions() && pack.ValidSlots() && Remaining(pack, l) != {} && expression != L4
    ensures Ask(pack, false, expression, l).Some?
  {
    hide ActiveTargets, Remaining, CompletionValues, CompletionOf;
    match expression
    case L3 =>
      var k := SomeTargetRemains(pack, L3, l);
      var p :| p in pack.l3Plans && p.targets[0].key == k;
    case L2 =>
      var k := SomeTargetRemains(pack, L2, l);
      var p :| p in pack.l2Plans && p.target.key == k;
    case L0 =>
  }

  lemma L4AsksWhenAgreed(pack: TaskPack, l: Ledger)
    requires pack.ValidQuestions() && Remaining(pack, l) != {} && AsksAgree(pack)
    ensures Ask(pack, false, L4, l).Some?
  {
    ActiveTargetsRemain(pack, L4, l);
    hide TaskPack.ValidQuestions, Remaining, CompletionValues, Select, Occurrences;
    var ts := ActiveTargets(pack, L4, l);
    if |ts| == 1 {
      SelectLength(pack.initial.targets, Remaining(pack, l));
      assert ts[0] in ts;
      assert Occurrences(pack.initial.targets, ts[0].key) == 1;
    }
  }

  /** A bound ledger with every required target but `k` verified, by joint evidence. */
  function AllBut(pack: TaskPack, k: Key): Ledger
    requires pack.ValidCompletion()
  {
    Ledger(pack.binding,
           map f | f in pack.requiredFacts && TargetKey(FactTarget, f) != k ::
             FactEntry(pack.facts[f].value, [StructuredEvidence("t", JointSource, TargetKey(FactTarget, f),
               Some(pack.facts[f].value))]),
           map r | r in pack.requiredRelations && TargetKey(RelationTarget, r) != k ::
             [StructuredEvidence("t", JointSource, TargetKey(RelationTarget, r), None)],
           map[], map[])
  }

  lemma AllButIsUsable(pack: TaskPack, k: Key)
    requires pack.ValidCompletion() && k in pack.Required()
    ensures var l := AllBut(pack, k); WellFormed(l) && BoundTo(l, pack) && Remaining(pack, l) == {k}
  {
    var l := AllBut(pack, k);
    forall f | f in l.facts ensures pack.facts[f].Accepts(l.facts[f].value) {
      OwnValueAccepted(pack.facts[f]);
    }
    forall x ensures x in Remaining(pack, l) <==> x == k {
      if x in pack.Required() && x != k {
        assert x in Verified(l);
      }
    }
  }

  /** The opening asks `t` once, and no L3 plan asks it the same way. */
  ghost predicate Unmatched(pack: TaskPack, t: Target)
    requires forall p | p in pack.l3Plans :: |p.targets| == 1
  {
    t in pack.initial.targets && Occurrences(pack.initial.targets, t.key) == 1 && forall p | p in pack.l3Plans ::
      p.targets[0] != t
  }

  /** With an unmatched target alone remaining, L4 finds no question. */
  lemma UnmatchedSticks(pack: TaskPack, t: Target, l: Ledger)
    requires (forall p | p in pack.l3Plans :: |p.targets| == 1) && Unmatched(pack, t) && Remaining(pack, l) == {t.key}
    ensures Ask(pack, false, L4, l).None?
  {
    hide Remaining, CompletionValues;
    OccursOnce(pack.initial.targets, t);
    assert ActiveTargets(pack, L4, l) == [t];
  }

  /** A usable ledger on which L4 finds no question, when some target is asked differently at L3. */
  lemma DisagreementSticks(pack: TaskPack) returns (l: Ledger)
    requires pack.ValidCompletion() && pack.ValidQuestions() && !AsksAgree(pack)
    ensures WellFormed(l) && BoundTo(l, pack) && Remaining(pack, l) != {}
    ensures Ask(pack, false, L4, l).None?
  {
    var t :| t in pack.initial.targets && Unmatched(pack, t);
    assert t.key in (set x | x in pack.initial.targets :: x.key);
    hide Remaining, Ask, Occurrences;
    l := AllBut(pack, t.key);
    AllButIsUsable(pack, t.key);
    UnmatchedSticks(pack, t, l);
  }

  /** In every state whose ledger is usable and incomplete a question is found. */
  ghost predicate NeverStuck(pack: TaskPack)
    requires forall p | p in pack.l3Plans :: |p.targets| == 1
  {
    forall expression, l :: WellFormed(l) && BoundTo(l, pack) && Remaining(pack, l) != {} ==>
      Ask(pack, false, expression, l).Some?
  }

  /** The engine can always ask its next question if and only if the pack's L3 plans ask each opening target the way
      the opening question does. */
  lemma NeverStuckIff(pack: TaskPack)
    requires pack.ValidCompletion() && pack.ValidQuestions() && pack.ValidSlots()
    ensures AsksAgree(pack) <==> NeverStuck(pack)
  {
    if AsksAgree(pack) {
      forall expression, l | WellFormed(l) && BoundTo(l, pack) && Remaining(pack, l) != {}
        ensures Ask(pack, false, expression, l).Some?
      {
        if expression == L4 { L4AsksWhenAgreed(pack, l); } else { LowerLevelsAlwaysAsk(pack, expression, l); }
      }
    } else {
      var l := DisagreementSticks(pack);
      assert !NeverStuck(pack);
    }
  }
}
