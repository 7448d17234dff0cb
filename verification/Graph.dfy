/** Validation of the home reasoning graph: ids, references, completion lists, and the depth-first cycle check. */
module ReasoningGraph {
  import opened Common

  datatype Relation = Relation(id: string, inputs: seq<string>, output: string, required: bool)

  datatype Graph = Graph(
    facts: seq<string>,
    requiredFacts: set<string>,
    relations: seq<Relation>,
    completionFacts: seq<string>,
    completionRelations: seq<string>)

  datatype GraphError =
    | DuplicateFact | DuplicateRelation | UnknownInput | UnknownOutput | SelfConsumption
    | CompletionMismatch | DuplicateCompletion | Cyclic

  type Dependencies = map<string, set<string>>

  /** Every dependency is a fact of the graph. */
  ghost predicate Closed(deps: Dependencies) {
    forall f | f in deps :: deps[f] <= deps.Keys
  }

  predicate DependsOn(deps: Dependencies, a: string, b: string) {
    a in deps && b in deps[a]
  }

  /** A chain of facts, each depending on the next. */
  ghost predicate Chain(deps: Dependencies, p: seq<string>) {
    forall i :: 0 <= i < |p| - 1 ==> DependsOn(deps, p[i], p[i + 1])
  }

  ghost predicate Cycle(deps: Dependencies, p: seq<string>) {
    |p| >= 2 && Chain(deps, p) && p[0] == p[|p| - 1]
  }

  ghost predicate Acyclic(deps: Dependencies) {
    !exists p :: Cycle(deps, p)
  }

  /** An order of facts in which each comes after everything it depends on. */
  ghost predicate Topological(deps: Dependencies, order: seq<string>) {
    && Unique(order)
    && forall i, d :: 0 <= i < |order| && DependsOn(deps, order[i], d) ==> d in order[..i]
  }

  function Position(order: seq<string>, f: string): (i: nat)
    requires f in order
    ensures i < |order| && order[i] == f
  {
    if order[0] == f then 0
    else
      assert order == [order[0]] + order[1..];
      1 + Position(order[1..], f)
  }

  lemma PositionIsUnique(order: seq<string>, i: nat)
    requires Unique(order) && i < |order|
    ensures Position(order, order[i]) == i
  {}

  /** Along a chain of an ordered graph positions fall. */
  lemma {:induction false} ChainDescends(deps: Dependencies, order: seq<string>, p: seq<string>)
    requires Topological(deps, order) && Chain(deps, p) && p != [] && p[0] in order
    ensures p[|p| - 1] in order
    ensures |p| >= 2 ==> Position(order, p[|p| - 1]) < Position(order, p[0])
  {
    if |p| >= 2 {
      var i := Position(order, p[0]);
      assert DependsOn(deps, order[i], p[1]);
      var j :| 0 <= j < i && order[..i][j] == p[1];
      PositionIsUnique(order, j);
      forall k | 0 <= k < |p[1..]| - 1 ensures DependsOn(deps, p[1..][k], p[1..][k + 1]) {
        assert DependsOn(deps, p[k + 1], p[k + 2]);
      }
      ChainDescends(deps, order, p[1..]);
    }
  }

  /** A graph that can be ordered has no cycle. */
  lemma OrderedIsAcyclic(deps: Dependencies, order: seq<string>)
    requires Topological(deps, order) && Elements(order) == deps.Keys
    ensures Acyclic(deps)
  {
    forall p ensures !Cycle(deps, p) {
      if Cycle(deps, p) {
        assert DependsOn(deps, p[0], p[1]);
        assert p[0] in Elements(order);
        ChainDescends(deps, order, p);
      }
    }
  }

  /** Meeting a fact that is still being visited closes a cycle. */
  lemma BackEdgeIsCycle(deps: Dependencies, path: seq<string>, f: string)
    requires Chain(deps, path) && f in path && DependsOn(deps, path[|path| - 1], f)
    ensures !Acyclic(deps)
  {
    var k :| 0 <= k < |path| && path[k] == f;
    var p := path[k..] + [f];
    forall i | 0 <= i < |p| - 1 ensures DependsOn(deps, p[i], p[i + 1]) {
      if i + 1 < |path[k..]| {
        assert DependsOn(deps, path[k + i], path[k + i + 1]);
      } else {
        assert p[i] == path[|path| - 1];
      }
    }
    assert Cycle(deps, p);
  }

  class CycleCheck {
    const deps: Dependencies
    var visiting: set<string>
    var visited: set<string>
    /** The visited facts in the order they were finished. */
    ghost var order: seq<string>

    ghost predicate Valid()
      reads this
    {
      && Closed(deps)
      && visiting <= deps.Keys && visited <= deps.Keys && visiting !! visited
      && Elements(order) == visited
      && Topological(deps, order)
    }

    constructor (deps: Dependencies)
      requires Closed(deps)
      ensures Valid() && this.deps == deps && visiting == {} && visited == {}
    {
      this.deps := deps;
      visiting, visited, order := {}, {}, [];
    }

    /** `visit`: false where it raises. The facts being visited are the path that led here. */
    method Visit(f: string, ghost path: seq<string>) returns (ok: bool)
      requires Valid() && f in deps
      requires Elements(path) == visiting && Chain(deps, path)
      requires path != [] ==> DependsOn(deps, path[|path| - 1], f)
      modifies this`visiting, this`visited, this`order
      ensures ok ==> Valid() && visiting == old(visiting) && old(visited) <= visited && f in visited
      ensures !ok ==> !Acyclic(deps)
      decreases deps.Keys - visiting
    {
      if f in visiting {
        assert f in Elements(path);
        BackEdgeIsCycle(deps, path, f);
        return false;
      }
      if f in visited {
        return true;
      }
      visiting := visiting + {f};
      ghost var here := path + [f];
      forall i | 0 <= i < |here| - 1 ensures DependsOn(deps, here[i], here[i + 1]) {
        assert i + 1 < |path| ==> DependsOn(deps, path[i], path[i + 1]);
      }
      ElementsSnoc(path, f);
      var rest := deps[f];
      while rest != {}
        invariant Valid() && visiting == old(visiting) + {f} && old(visited) <= visited
        invariant rest <= deps[f] && deps[f] - rest <= visited
        decreases rest
      {
        var d :| d in rest;
        rest := rest - {d};
        assert Closed(deps) && d in deps.Keys;
        var fine := Visit(d, here);
        if !fine {
          return false;
        }
      }
      visiting := visiting - {f};
      visited := visited + {f};
      TopologicalSnoc(deps, order, f);
      ElementsSnoc(order, f);
      order := order + [f];
      assert visiting == old(visiting);
      return true;
    }

    /** Visits every fact; accepted exactly when the graph has no cycle, and then the facts are in dependency order. */
    method VisitAll(facts: seq<string>) returns (ok: bool)
      requires Valid() && visiting == {} && visited == {} && Elements(facts) == deps.Keys
      modifies this
      ensures ok <==> Acyclic(deps)
      ensures ok ==> Elements(order) == deps.Keys && Topological(deps, order)
    {
      for i := 0 to |facts|
        invariant Valid() && visiting == {} && Elements(facts[..i]) <= visited
      {
        assert facts[..i + 1] == facts[..i] + [facts[i]];
        ElementsSnoc(facts[..i], facts[i]);
        assert facts[i] in Elements(facts);
        ok := Visit(facts[i], []);
        if !ok {
          return;
        }
      }
      assert facts[..|facts|] == facts;
      OrderedIsAcyclic(deps, order);
      ok := true;
    }
  }

  lemma TopologicalSnoc(deps: Dependencies, order: seq<string>, f: string)
    requires Topological(deps, order) && f !in order && f in deps && deps[f] <= Elements(order)
    ensures Topological(deps, order + [f])
  {
    var longer := order + [f];
    forall i, d | 0 <= i < |longer| && DependsOn(deps, longer[i], d) ensures d in longer[..i] {
      if i < |order| {
        assert d in order[..i] && longer[..i] == order[..i];
      } else {
        assert d in Elements(order) && longer[..i] == order;
      }
    }
  }

  // ----- the whole validator -----

  /** What a fact depends on: the inputs of every relation that produces it. */
  ghost function InputsOf(relations: seq<Relation>, f: string): set<string> {
    set r, x | r in relations && r.output == f && x in r.inputs :: x
  }

  ghost predicate HasDependencies(g: Graph, deps: Dependencies) {
    deps.Keys == Elements(g.facts) && forall f | f in deps :: deps[f] == InputsOf(g.relations, f)
  }

  function Ids(relations: seq<Relation>): (r: seq<string>)
    ensures |r| == |relations| && forall i :: 0 <= i < |r| ==> r[i] == relations[i].id
  {
    seq(|relations|, i requires 0 <= i < |relations| => relations[i].id)
  }

  function RequiredRelations(g: Graph): set<string> {
    set r | r in g.relations && r.required :: r.id
  }

  ghost predicate GoodRelation(g: Graph, r: Relation) {
    (forall x | x in r.inputs :: x in g.facts) && r.output in g.facts && r.output !in r.inputs
  }

  /** Everything but the cycle check. */
  ghost predicate WellReferenced(g: Graph) {
    && Unique(g.facts) && Unique(Ids(g.relations))
    && (forall r | r in g.relations :: GoodRelation(g, r))
    && Elements(g.completionFacts) == g.requiredFacts && Elements(g.completionRelations) == RequiredRelations(g)
    && Unique(g.completionFacts) && Unique(g.completionRelations)
  }

  predicate Duplicates(s: seq<string>)
    ensures Duplicates(s) <==> !Unique(s)
  {
    exists i, j :: 0 <= i < j < |s| && s[i] == s[j]
  }

  method BuildDependencies(g: Graph) returns (deps: Dependencies)
    requires forall r | r in g.relations :: GoodRelation(g, r)
    ensures HasDependencies(g, deps) && Closed(deps)
  {
    deps := map f | f in g.facts :: {};
    for i := 0 to |g.relations|
      invariant deps.Keys == Elements(g.facts)
      invariant forall f | f in deps :: deps[f] == InputsOf(g.relations[..i], f)
    {
      var r := g.relations[i];
      assert r in g.relations && GoodRelation(g, r);
      assert g.relations[..i + 1] == g.relations[..i] + [r];
      deps := deps[r.output := deps[r.output] + set x | x in r.inputs];
    }
    assert g.relations[..|g.relations|] == g.relations;
    forall f, x | f in deps && x in deps[f] ensures x in deps.Keys {
      var r :| r in g.relations && r.output == f && x in r.inputs;
      assert GoodRelation(g, r);
    }
  }

  /** `validate_graph`, without the arithmetic and rubric checks of single relations: a graph is accepted iff its
      references are good and no fact depends on itself through any chain of relations. */
  method Validate(g: Graph, ghost deps: Dependencies) returns (e: Option<GraphError>)
    requires HasDependencies(g, deps)
    ensures e.None? <==> WellReferenced(g) && Acyclic(deps)
    ensures e == Some(Cyclic) <==> WellReferenced(g) && !Acyclic(deps)
  {
    if Duplicates(g.facts) {
      return Some(DuplicateFact);
    }
    if Duplicates(Ids(g.relations)) {
      return Some(DuplicateRelation);
    }
    for i := 0 to |g.relations|
      invariant forall k :: 0 <= k < i ==> GoodRelation(g, g.relations[k])
    {
      var r := g.relations[i];
      if exists x | x in r.inputs :: x !in g.facts {
        assert !GoodRelation(g, r);
        return Some(UnknownInput);
      }
      if r.output !in g.facts {
        assert !GoodRelation(g, r);
        return Some(UnknownOutput);
      }
      if r.output in r.inputs {
        assert !GoodRelation(g, r);
        return Some(SelfConsumption);
      }
    }
    if Elements(g.completionFacts) != g.requiredFacts || Elements(g.completionRelations) != RequiredRelations(g) {
      return Some(CompletionMismatch);
    }
    if Duplicates(g.completionFacts) || Duplicates(g.completionRelations) {
      return Some(DuplicateCompletion);
    }
    var built := BuildDependencies(g);
    assert built == deps;
    var check := new CycleCheck(built);
    var ok := check.VisitAll(g.facts);
    return if ok then None else Some(Cyclic);
  }
}
