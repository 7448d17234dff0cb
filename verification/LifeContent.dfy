/** Life scenarios: stages with task variants, variant selectors and the facts reported at the end. */
module LifeContent {
  import opened Common
  import opened Content
  import opened Ledgers
  import opened Questions
  import opened Json
  import opened WritableValues

  /** Chooses a stage's variant from a fact verified in an earlier task. */
  datatype Selector = Selector(sourceTask: string, factId: string, variants: map<string, string>)

  datatype Stage = Stage(taskId: string, defaultVariant: string, variants: map<string, TaskPack>,
      selector: Option<Selector>)

  datatype Projection =
    | ProjectFact(key: string, task: string, factId: string)
    | ProjectRelation(key: string, task: string, relationId: string, constant: Json)

  /** `show` renders a number as `str` does. */
  datatype Scenario = Scenario(show: Num -> string, stages: seq<Stage>, projections: seq<Projection>)
  {
    function TaskIds(): set<string> {
      set st | st in stages :: st.taskId
    }

    ghost predicate Apart(i: int, j: int)
      requires 0 <= i < j < |stages|
    {
      stages[i].taskId != stages[j].taskId
    }

    ghost predicate UniqueTasks() {
      forall i, j {:trigger Apart(i, j)} :: 0 <= i < j < |stages| ==> Apart(i, j)
    }

    ghost predicate ValidSelector(i: nat)
      requires i < |stages|
    {
      stages[i].selector.Some? ==>
        var sel := stages[i].selector.value;
        && (forall k | k in sel.variants :: sel.variants[k] in stages[i].variants)
        && exists j :: 0 <= j < i && Feeds(stages[j], sel)
    }

    ghost predicate ValidProjection(p: Projection) {
      exists st | st in stages :: st.taskId == p.task && forall v | v in st.variants :: Offers(st.variants[v], p)
    }

    ghost predicate Valid() {
      && stages != [] && UniqueTasks()
      && (forall st | st in stages :: st.defaultVariant in st.variants)
      && (forall st, v | st in stages && v in st.variants :: LifeValid(st.variants[v]))
      && (forall i :: 0 <= i < |stages| ==> ValidSelector(i))
      && (forall p | p in projections :: ValidProjection(p))
      && (forall i, j :: 0 <= i < j < |projections| ==> projections[i].key != projections[j].key)
    }
  }

  ghost predicate OneTargetEach(pack: TaskPack) {
    forall p | p in pack.l3Plans :: |p.targets| == 1
  }

  ghost predicate Wired(sc: Scenario, st: Stage) {
    && st.taskId in sc.TaskIds() && st.defaultVariant in st.variants
    && (forall v | v in st.variants :: OneTargetEach(st.variants[v]))
    && (st.selector.Some? ==>
          st.selector.value.sourceTask in sc.TaskIds()
          && forall k | k in st.selector.value.variants :: st.selector.value.variants[k] in st.variants)
  }

  /** As much of a scenario's validity as it takes to run it. */
  ghost predicate Runnable(sc: Scenario) {
    sc.stages != [] && sc.UniqueTasks() && forall st {:trigger Wired(sc, st)} | st in sc.stages :: Wired(sc, st)
  }

  lemma ValidAsksOneTargetEach(pack: TaskPack)
    requires LifeValid(pack)
    ensures OneTargetEach(pack)
  {}

  lemma ValidIsRunnable(sc: Scenario)
    requires sc.Valid()
    ensures Runnable(sc)
  {
    hide LifeValid, OneTargetEach;
    forall st | st in sc.stages ensures Wired(sc, st) {
      var i :| 0 <= i < |sc.stages| && sc.stages[i] == st;
      assert sc.ValidSelector(i);
      forall v | v in st.variants ensures OneTargetEach(st.variants[v]) {
        assert LifeValid(st.variants[v]);
        ValidAsksOneTargetEach(st.variants[v]);
      }
    }
  }

  /** A choice verifies at most eight facts and eight relations. */
  predicate ShortEffects(pack: TaskPack) {
    forall p, c | p in pack.l2Plans && c in p.choices :: |c.effect.facts| <= 8 && |c.effect.relations| <= 8
  }

  /** A life task: the shared contract, entered at L4 or L2. Opening targets and plan ids may repeat. */
  ghost predicate LifeValid(pack: TaskPack) {
    && pack.Valid() && |pack.initial.targets| <= 4 && pack.entryLevel in {L4, L2} && ShortEffects(pack)
    && forall f | f in pack.facts :: pack.facts[f].acceptance.LifeFact?
  }

  ghost predicate Feeds(source: Stage, sel: Selector) {
    source.taskId == sel.sourceTask && forall v | v in source.variants :: sel.factId in source.variants[v].facts
  }

  ghost predicate Offers(pack: TaskPack, p: Projection) {
    match p
    case ProjectFact(_, _, f) => f in pack.facts
    case ProjectRelation(_, _, r, _) => r in pack.relations
  }

  /** `_value_lookup_key` */
  function LookupKey(show: Num -> string, v: Value): string {
    match v
    case Money(n, _) => show(n)
    case Number(n, _) => show(n)
    case Text(t) => t
    case Boolean(b) => if b then "true" else "false"
    case ChoiceOf(c) => c
  }

  /** The variant the selector picks on a source ledger; a missing key raises. */
  function Select(show: Num -> string, sel: Selector, source: Ledger): Option<string> {
    if sel.factId !in source.facts then None
    else
      var key := LookupKey(show, source.facts[sel.factId].value);
      if key in sel.variants then Some(sel.variants[key]) else None
  }

  /** One projected value; an unverified hidden fact or relation raises. */
  function Project(pack: TaskPack, l: Ledger, p: Projection): Option<Json> {
    match p
    case ProjectFact(_, _, f) =>
      if f in l.facts then Some(Primitive(l.facts[f].value))
      else if f in pack.facts && pack.facts[f].visible then Some(Primitive(pack.facts[f].value))
      else None
    case ProjectRelation(_, _, r, constant) => if r in l.relations then Some(constant) else None
  }

  // ----- lookups that can and cannot fail -----

  /** A ledger a finished task can leave. */
  ghost predicate FinishedLedger(pack: TaskPack, l: Ledger) {
    WellFormed(l) && BoundTo(l, pack) && Complete(pack, l)
  }

  /** Task packs a conversation can meet at stage `i`: the default one, or one its selector finds for a value that an
      earlier task, as it can be met, can come to write. */
  ghost predicate Enterable(sc: Scenario, i: nat, pack: TaskPack)
    requires i < |sc.stages|
    decreases i
  {
    var st := sc.stages[i];
    match st.selector
    case None => st.defaultVariant in st.variants && pack == st.variants[st.defaultVariant]
    case Some(sel) =>
      exists j: nat, source, v ::
        && j < i && sc.stages[j].taskId == sel.sourceTask && Enterable(sc, j, source)
        && Writable(source, sel.factId, v) && Leads(sc.show, sel, v, st, pack)
  }

  /** The selector maps the value to a variant that is this pack. */
  ghost predicate Leads(show: Num -> string, sel: Selector, v: Value, st: Stage, pack: TaskPack) {
    var key := LookupKey(show, v);
    key in sel.variants && sel.variants[key] in st.variants && pack == st.variants[sel.variants[key]]
  }

  /** The selector finds a variant whatever a finished source task holds: its fact is required there, and every value
      that can be written for it is mapped. Loading a scenario checks neither. */
  ghost predicate SelectorSealed(show: Num -> string, sel: Selector, pack: TaskPack) {
    sel.factId in pack.requiredFacts && forall v :: Writable(pack, sel.factId, v) ==> LookupKey(show, v) in sel.variants
  }

  ghost predicate SelectorsSealed(sc: Scenario) {
    forall k: nat, j: nat, pack | j < k < |sc.stages| && Selects(sc, k, j) && Enterable(sc, j, pack) ::
      SelectorSealed(sc.show, sc.stages[k].selector.value, pack)
  }

  /** Stage `k` is chosen by what stage `j` established. */
  ghost predicate Selects(sc: Scenario, k: nat, j: nat)
    requires j < k < |sc.stages|
  {
    sc.stages[k].selector.Some? && sc.stages[j].taskId == sc.stages[k].selector.value.sourceTask
  }

  /** The projected target of a finished task is there whatever the child did. */
  predicate Covered(pack: TaskPack, p: Projection) {
    match p
    case ProjectFact(_, _, f) => f in pack.requiredFacts || (f in pack.facts && pack.facts[f].visible)
    case ProjectRelation(_, _, r, _) => r in pack.requiredRelations
  }

  ghost predicate ProjectionsSealed(sc: Scenario) {
    forall p, i: nat, pack | p in sc.projections && i < |sc.stages| && sc.stages[i].taskId == p.task
      && Enterable(sc, i, pack) ::
      Covered(pack, p)
  }

  lemma CoveredProjects(pack: TaskPack, l: Ledger, p: Projection)
    requires FinishedLedger(pack, l) && Covered(pack, p)
    ensures Project(pack, l, p).Some?
  {
    CompleteIffRequiredVerified(pack, l);
    match p
    case ProjectFact(_, _, f) =>
      if f in pack.requiredFacts { assert TargetKey(FactTarget, f) in pack.Required(); }
    case ProjectRelation(_, _, r, _) =>
      assert TargetKey(RelationTarget, r) in pack.Required();
  }

  /** The opening question names each target once, the way its L3 plan asks it. */
  ghost predicate Askable(pack: TaskPack)
    requires LifeValid(pack)
  {
    AsksAgree(pack) && DistinctKeys(pack.initial.targets)
  }

  /** The questions of every task can always be put. */
  ghost predicate Asking(sc: Scenario)
    requires sc.Valid()
  {
    forall st, v | st in sc.stages && v in st.variants :: Askable(st.variants[v])
  }

  /** A scenario whose questions can always be put and whose selectors and projections never fail. */
  ghost predicate Sealed(sc: Scenario)
    requires sc.Valid()
  {
    Asking(sc) && SelectorsSealed(sc) && ProjectionsSealed(sc)
  }
}
