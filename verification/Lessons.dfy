/** Lessons: free speech that names targets correctly, or tries a relation halfway, and what it leaves in a ledger. */
module Lessons {
  import opened Common
  import opened Content
  import opened Ledgers
  import opened LedgerOperations
  import opened Ladders
  import opened Questions
  import opened Turns

  // ----- claims for a list of targets -----

  /** The keys of `ids` outside `skip`. */
  function Others(ids: seq<string>, kind: TargetKind, skip: set<Key>): (r: seq<Key>)
    ensures forall k :: k in r <==> k.kind == kind && k.id in ids && k !in skip
  {
    if ids == [] then []
    else
      assert ids == [ids[0]] + ids[1..];
      var rest := Others(ids[1..], kind, skip);
      if TargetKey(kind, ids[0]) in skip then rest else [TargetKey(kind, ids[0])] + rest
  }

  lemma {:induction false} OthersUnique(ids: seq<string>, kind: TargetKind, skip: set<Key>)
    requires Unique(ids)
    ensures Unique(Others(ids, kind, skip))
  {
    if ids != [] {
      OthersUnique(ids[1..], kind, skip);
      var rest := Others(ids[1..], kind, skip);
      assert TargetKey(kind, ids[0]) !in rest;
    }
  }

  /** The required targets outside `skip`, facts first. */
  function AllOthers(pack: TaskPack, skip: set<Key>): seq<Key> {
    Others(pack.requiredFacts, FactTarget, skip) + Others(pack.requiredRelations, RelationTarget, skip)
  }

  lemma AllOthersAre(pack: TaskPack, skip: set<Key>)
    requires pack.ValidCompletion()
    ensures var keys := AllOthers(pack, skip);
            && Unique(keys) && (forall k :: k in keys <==> k in pack.Required() && k !in skip)
            && forall k | k in keys :: pack.Known(k)
  {
    OthersUnique(pack.requiredFacts, FactTarget, skip);
    OthersUnique(pack.requiredRelations, RelationTarget, skip);
    forall k: Key ensures k in AllOthers(pack, skip) <==> k in pack.Required() && k !in skip {
      match k.kind
      case FactTarget => assert k == TargetKey(FactTarget, k.id);
      case RelationTarget => assert k == TargetKey(RelationTarget, k.id);
    }
  }

  function ClaimOf(k: Key): Claim {
    match k.kind
    case FactTarget => FactClaim(KeyText(k), k.id, "x", Correct)
    case RelationTarget => RelationClaim(KeyText(k), k.id, "x", Sufficient)
  }

  lemma KeyTextInjective(a: Key, b: Key)
    requires KeyText(a) == KeyText(b)
    ensures a == b
  {
    assert KeyText(a)[0] == if a.kind.FactTarget? then 'f' else 'r';
    assert KeyText(b)[0] == if b.kind.FactTarget? then 'f' else 'r';
    assert a.id == KeyText(a)[if a.kind.FactTarget? then 5 else 9..];
    assert b.id == KeyText(b)[if b.kind.FactTarget? then 5 else 9..];
  }

  /** One correct claim per key, each with a match. */
  function ClaimsFor(keys: seq<Key>): Guarded {
    Guarded(seq(|keys|, i requires 0 <= i < |keys| => ClaimOf(keys[i])),
            seq(|keys|, i requires 0 <= i < |keys| => Match(KeyText(keys[i]), Range(0, 1, Exact))))
  }

  lemma ClaimsAreMatched(keys: seq<Key>)
    requires Unique(keys)
    ensures OneMatchPerClaim(ClaimsFor(keys))
  {
    var g := ClaimsFor(keys);
    forall i, j | 0 <= i < j < |keys| ensures g.matches[i].claimId != g.matches[j].claimId {
      if KeyText(keys[i]) == KeyText(keys[j]) {
        KeyTextInjective(keys[i], keys[j]);
      }
    }
    forall id ensures id in MatchIds(g.matches) <==> id in ClaimIds(g.claims) {
      if id in MatchIds(g.matches) {
        var i :| 0 <= i < |keys| && g.matches[i].claimId == id;
        assert g.claims[i] in g.claims && g.claims[i].claimId == id;
      }
      if id in ClaimIds(g.claims) {
        var i :| 0 <= i < |keys| && g.claims[i].claimId == id;
        assert g.matches[i] in g.matches && g.matches[i].claimId == id;
      }
    }
  }

  /** The claims are those made of the keys, in order. */
  ghost predicate MadeOf(claims: seq<Admitted>, keys: seq<Key>) {
    |claims| == |keys| && forall i :: 0 <= i < |keys| ==> claims[i].claim == ClaimOf(keys[i])
  }

  lemma ClaimedIff(claims: seq<Admitted>, keys: seq<Key>, id: string)
    requires MadeOf(claims, keys)
    ensures (exists a | a in claims :: VerifiesFact(a.claim, id)) <==> TargetKey(FactTarget, id) in keys
    ensures (exists a | a in claims :: VerifiesRelation(a.claim, id)) <==> TargetKey(RelationTarget, id) in keys
    ensures forall a | a in claims :: !AttemptsRelation(a.claim, id)
  {
    forall i | 0 <= i < |keys| ensures claims[i] in claims && keys[i] in keys {}
  }

  /** What a lesson about the keys leaves of ledger `l`: the keys added with reviewed values, nothing else changed. */
  ghost predicate Teaches(pack: TaskPack, l: Ledger, keys: seq<Key>, m: Ledger) {
    && m.binding == l.binding && m.auxiliary == l.auxiliary && m.partials.Keys == l.partials.Keys
    && (forall k :: k in Verified(m) <==> k in Verified(l) || k in keys)
    && (forall f | f in m.facts ::
          if f in l.facts then m.facts[f].value == l.facts[f].value
          else f in pack.facts && m.facts[f].value == pack.facts[f].value)
  }

  /** Which targets a fold of these claims verifies. */
  lemma FoldVerifies(pack: TaskPack, turn: string, l: Ledger, keys: seq<Key>, claims: seq<Admitted>, id: string)
    requires AllFactsKnown(pack, claims) && MadeOf(claims, keys)
    ensures var m := ClaimFold(pack, turn, NoProgress(l), claims).ledger;
            && (id in m.facts <==> id in l.facts || TargetKey(FactTarget, id) in keys)
            && (id in m.relations <==> id in l.relations || TargetKey(RelationTarget, id) in keys)
            && (id in m.facts ==> if id in l.facts then m.facts[id].value == l.facts[id].value
                                  else id in pack.facts && m.facts[id].value == pack.facts[id].value)
            && (id in m.partials <==> id in l.partials)
  {
    hide ClaimFold, AllFactsKnown, MadeOf, VerifiesFact, VerifiesRelation, AttemptsRelation;
    var p := NoProgress(l);
    ClaimedIff(claims, keys, id);
    FactVerifiedIff(pack, turn, p, claims, id);
    RelationVerifiedIff(pack, turn, p, claims, id);
    PartialRecordedIff(pack, turn, p, claims, id);
    assert forall i: nat | i < |claims| :: claims[i] in claims;
  }

  /** A fold of such claims touches neither binding nor auxiliary evidence. */
  lemma FoldFrame(pack: TaskPack, turn: string, l: Ledger, keys: seq<Key>, claims: seq<Admitted>)
    requires WellFormed(l) && AllFactsKnown(pack, claims) && MadeOf(claims, keys)
    ensures var m := ClaimFold(pack, turn, NoProgress(l), claims).ledger;
            m.binding == l.binding && m.auxiliary == l.auxiliary
  {
    hide ClaimFold, AllFactsKnown, ExactDelta, WellFormed, AuxiliaryIds, AddsAuxiliary;
    NoProgressGrown(l);
    ClaimFoldGrows(pack, turn, l, NoProgress(l), claims);
    NoAuxiliary(turn, keys, claims);
    FoldAuxiliary(pack, turn, NoProgress(l), claims);
    var m := ClaimFold(pack, turn, NoProgress(l), claims).ledger;
    assert m.auxiliary.Keys == l.auxiliary.Keys;
  }

  lemma NoAuxiliary(turn: string, keys: seq<Key>, claims: seq<Admitted>)
    requires MadeOf(claims, keys)
    ensures AuxiliaryIds(turn, claims) == {}
  {
    forall a | a in claims ensures !AddsAuxiliary(a.claim) {
      var i :| 0 <= i < |claims| && claims[i] == a;
    }
    hide AddsAuxiliary, EvidenceFor;
  }

  lemma FoldTeaches(pack: TaskPack, turn: string, l: Ledger, keys: seq<Key>, claims: seq<Admitted>)
    requires WellFormed(l) && AllFactsKnown(pack, claims) && MadeOf(claims, keys)
    ensures Teaches(pack, l, keys, ClaimFold(pack, turn, NoProgress(l), claims).ledger)
  {
    hide ClaimFold, AllFactsKnown, MadeOf, NoProgress, WellFormed;
    FoldFrame(pack, turn, l, keys, claims);
    var m := ClaimFold(pack, turn, NoProgress(l), claims).ledger;
    forall id
      ensures id in m.facts ==> if id in l.facts then m.facts[id].value == l.facts[id].value
                                else id in pack.facts && m.facts[id].value == pack.facts[id].value
      ensures id in m.partials.Keys <==> id in l.partials.Keys
    {
      FoldVerifies(pack, turn, l, keys, claims, id);
    }
    forall k: Key ensures k in Verified(m) <==> k in Verified(l) || k in keys {
      FoldVerifies(pack, turn, l, keys, claims, k.id);
      match k.kind
      case FactTarget => assert k == TargetKey(FactTarget, k.id);
      case RelationTarget => assert k == TargetKey(RelationTarget, k.id);
    }
  }

  lemma ClaimsAreKnown(pack: TaskPack, keys: seq<Key>)
    requires OneMatchPerClaim(ClaimsFor(keys)) && forall k | k in keys :: pack.Known(k)
    ensures AboutGraph(pack, ClaimsFor(keys).claims) && MadeOf(Pairs(ClaimsFor(keys)), keys)
  {
    forall i | 0 <= i < |keys| ensures InGraph(pack, ClaimOf(keys[i])) {
      assert keys[i] in keys;
    }
  }

  /** A lesson about known targets always applies to a usable ledger, and adds exactly them. */
  lemma LessonApplies(pack: TaskPack, l: Ledger, keys: seq<Key>, turn: string)
    requires Usable(pack, l) && GoodTurnId(turn) && Unique(keys) && forall k | k in keys :: pack.Known(k)
    ensures var r := Apply(pack, l, ClaimsFor(keys), turn);
            r.Ok? && Teaches(pack, l, keys, r.value.Ledger()) && Sound(pack, l, r.value)
  {
    hide Pairs, OneMatchPerClaim, AllFactsKnown, ClaimsFor, Teaches, Sound, ClaimFold, CompletionOf, Complete,
         WellFormed, BoundTo, TaskPack.Known, MadeOf, AuxiliaryIds, AboutGraph;
    ClaimsAreMatched(keys);
    ClaimsAreKnown(pack, keys);
    NoAuxiliary(turn, keys, Pairs(ClaimsFor(keys)));
    PairsAboutGraph(pack, ClaimsFor(keys));
    FoldTeaches(pack, turn, l, keys, Pairs(ClaimsFor(keys)));
    assert l.auxiliary.Keys + {} == l.auxiliary.Keys && |l.auxiliary| == |l.auxiliary.Keys|;
    ApplyIff(pack, l, ClaimsFor(keys), turn);
    ApplyIsSound(pack, l, ClaimsFor(keys), turn);
  }

  /** What remains after a lesson. */
  lemma TaughtRemains(pack: TaskPack, l: Ledger, keys: seq<Key>, m: Ledger)
    requires Teaches(pack, l, keys, m)
    ensures forall k :: k in Remaining(pack, m) <==> k in Remaining(pack, l) && k !in keys
  {
    hide Verified, TaskPack.Required;
  }

  /** A lesson finishes the task iff it names everything missing. */
  lemma LessonIsOpen(pack: TaskPack, l: Ledger, keys: seq<Key>, a: Applied)
    requires Sound(pack, l, a) && Teaches(pack, l, keys, a.Ledger())
    ensures a.completion.Complete() <==> forall k | k in Remaining(pack, l) :: k in keys
  {
    hide Grown, BoundTo, CompletionOf, Teaches, TaskPack.Required, Verified;
    TaughtRemains(pack, l, keys, a.Ledger());
    EmptyDifference(pack.Required(), Verified(a.Ledger()));
    assert Remaining(pack, a.Ledger()) == {} <==> forall k | k in Remaining(pack, l) :: k in keys;
  }

  /** A newly verified target is canonical news. */
  lemma VerifiedIsNews(pack: TaskPack, l: Ledger, a: Applied, k: Key)
    requires Sound(pack, l, a) && k in Verified(a.Ledger()) && k !in Verified(l)
    ensures a.NewCanonical()
  {
    hide WellFormed, BoundTo, CompletionOf, Extends;
    var p := a.progress;
    match k.kind {
      case FactTarget =>
        assert k.id in p.ledger.facts.Keys - l.facts.Keys;
        assert k.id in Elements(p.newFacts);
      case RelationTarget =>
        assert k.id in p.ledger.relations.Keys - l.relations.Keys;
        assert k.id in Elements(p.newRelations);
    }
  }

  /** What a lesson says of its keys. */
  lemma LessonClaims(keys: seq<Key>, k: Key)
    requires k in keys
    ensures k.id in Claimed(ClaimsFor(keys).claims, k.kind, false)
  {
    var i :| 0 <= i < |keys| && keys[i] == k;
    assert ClaimsFor(keys).claims[i] == ClaimOf(k) && ClaimOf(k) in ClaimsFor(keys).claims;
  }

  lemma NewsOfLesson(pack: TaskPack, l: Ledger, keys: seq<Key>, a: Applied)
    requires Sound(pack, l, a) && Teaches(pack, l, keys, a.Ledger())
    ensures a.progress.newPartials == []
    ensures forall f | f in a.progress.newFacts :: TargetKey(FactTarget, f) in keys
    ensures forall r | r in a.progress.newRelations :: TargetKey(RelationTarget, r) in keys
  {
    hide WellFormed, BoundTo, CompletionOf, Extends;
    var p := a.progress;
    forall f | f in p.newFacts ensures TargetKey(FactTarget, f) in keys {
      assert f in Elements(p.newFacts);
      assert TargetKey(FactTarget, f) in Verified(a.Ledger()) && TargetKey(FactTarget, f) !in Verified(l);
    }
    forall r | r in p.newRelations ensures TargetKey(RelationTarget, r) in keys {
      assert r in Elements(p.newRelations);
      assert TargetKey(RelationTarget, r) in Verified(a.Ledger()) && TargetKey(RelationTarget, r) !in Verified(l);
    }
    assert forall r | r in p.newPartials :: r in Elements(p.newPartials);
    EmptyIff(p.newPartials);
  }

  /** No more is new than the claims are about. */
  lemma FewNews(claims: seq<Claim>, kind: TargetKind, news: seq<string>)
    requires Unique(news) && forall x | x in news :: x in Claimed(claims, kind, false)
    ensures |news| <= |claims|
  {
    hide Claimed, TargetName, About;
    var claimed := Claimed(claims, kind, false);
    UniqueCardinality(news);
    FewElements(claimed);
    assert Elements(news) <= Elements(claimed);
    SubsetCardinality(Elements(news), Elements(claimed));
  }

  lemma LessonEvidence(pack: TaskPack, l: Ledger, keys: seq<Key>, turn: string)
    requires Unique(keys) && Apply(pack, l, ClaimsFor(keys), turn).Ok?
    ensures var given := Given(ClaimsFor(keys).claims,
            Apply(pack, l, ClaimsFor(keys), turn).value.progress.claimEvidence);
            NoRepeats(given) && |given| <= |keys|
  {
    hide Apply, NoRepeats, Given, Pairs, KeyText;
    var g := ClaimsFor(keys);
    forall i, j | 0 <= i < j < |keys|
      ensures g.claims[i].claimId != g.claims[j].claimId
      ensures KindName(g.claims[i]) != KindName(g.claims[j]) || TargetName(g.claims[i]) != TargetName(g.claims[j])
    {
      if KeyText(keys[i]) == KeyText(keys[j]) {
        KeyTextInjective(keys[i], keys[j]);
      }
    }
    EvidenceRepeatsIff(pack, l, g, turn);
  }

  /** A lesson about at most eight targets fits the speaker, labels aside. */
  lemma LessonFits(pack: TaskPack, l: Ledger, keys: seq<Key>, turn: string, after: Ladder, sem: Semantics)
    requires Unique(keys) && |keys| <= MAX_SIGNAL_IDS && Apply(pack, l, ClaimsFor(keys), turn).Ok?
    requires sem == SaidSemantics(NoMove, ClaimsFor(keys), Apply(pack, l, ClaimsFor(keys), turn).value)
    requires Sound(pack, l, sem.applied) && Teaches(pack, l, keys, sem.applied.Ledger())
    requires after.conceptFailures <= MAX_REPEATS && LabelsFit(pack, sem)
    ensures FitsSpeaker(pack, after, sem)
  {
    hide Apply, Sound, Teaches, LabelsFit, NoRepeats, Given, Claimed, Dedup;
    var claims := ClaimsFor(keys).claims;
    NewsOfLesson(pack, l, keys, sem.applied);
    NewsIsUnique(pack, l, sem.applied);
    forall x | x in sem.applied.progress.newFacts ensures x in Claimed(claims, FactTarget, false) {
      LessonClaims(keys, TargetKey(FactTarget, x));
    }
    forall x | x in sem.applied.progress.newRelations ensures x in Claimed(claims, RelationTarget, false) {
      LessonClaims(keys, TargetKey(RelationTarget, x));
    }
    FewNews(claims, FactTarget, sem.applied.progress.newFacts);
    FewNews(claims, RelationTarget, sem.applied.progress.newRelations);
    DedupShortens(Claimed(claims, FactTarget, false));
    DedupShortens(Claimed(claims, RelationTarget, false));
    LessonEvidence(pack, l, keys, turn);
  }

  // ----- half a method -----

  /** A claim that only half explains relation `r`. */
  function HalfClaim(r: string): Guarded {
    Guarded([RelationClaim("half", r, "x", Partial)], [Match("half", Range(0, 1, Exact))])
  }

  lemma HalfIsMatched(pack: TaskPack, r: string)
    ensures OneMatchPerClaim(HalfClaim(r)) && AllFactsKnown(pack, Pairs(HalfClaim(r)))
    ensures Pairs(HalfClaim(r)) == [Admitted(RelationClaim("half", r, "x", Partial), Range(0, 1, Exact))]
  {
    var g := HalfClaim(r);
    assert g.claims[0] in g.claims && g.matches[0] in g.matches;
    assert MatchIds(g.matches) == {"half"} && ClaimIds(g.claims) == {"half"};
  }

  /** Half an explanation of a relation not verified or tried before is recorded, and nothing else. */
  lemma HalfApplies(pack: TaskPack, l: Ledger, r: string, turn: string)
    requires Usable(pack, l) && GoodTurnId(turn) && r in pack.relations && r !in l.relations && r !in l.partials
    ensures var a := Apply(pack, l, HalfClaim(r), turn);
            && a.Ok? && Sound(pack, l, a.value) && !a.value.NewCanonical() && a.value.NewPartial()
            && r in a.value.Ledger().partials && a.value.Ledger() == l.(partials := a.value.Ledger().partials)
  {
    HalfIsMatched(pack, r);
    var claims := Pairs(HalfClaim(r));
    assert AllFactsKnown(pack, claims[..0]) && ClaimFold(pack, turn, NoProgress(l), claims[..0]) == NoProgress(l);
    var p := ClaimFold(pack, turn, NoProgress(l), claims);
    assert p == ClaimStep(pack, turn, NoProgress(l), claims[0]);
    hide Pairs, OneMatchPerClaim, AllFactsKnown, WellFormed, Sound, CompletionOf, Complete, ClaimFold, HalfClaim;
    ApplyIsSound(pack, l, HalfClaim(r), turn);
  }

  /** The same half of relation `r`, claimed twice. */
  function TwiceHalf(r: string): Guarded {
    Guarded([RelationClaim("half", r, "x", Partial), RelationClaim("again", r, "x", Partial)],
            [Match("half", Range(0, 1, Exact)), Match("again", Range(0, 1, Exact))])
  }

  function TwiceClaims(r: string): seq<Admitted> {
    [Admitted(RelationClaim("half", r, "x", Partial), Range(0, 1, Exact)),
     Admitted(RelationClaim("again", r, "x", Partial), Range(0, 1, Exact))]
  }

  lemma TwiceIsMatched(pack: TaskPack, r: string)
    ensures OneMatchPerClaim(TwiceHalf(r)) && Pairs(TwiceHalf(r)) == TwiceClaims(r)
    ensures AllFactsKnown(pack, TwiceClaims(r))
  {
    var g := TwiceHalf(r);
    assert g.claims[0] in g.claims && g.claims[1] in g.claims && g.matches[0] in g.matches && g.matches[1] in g.matches;
    assert MatchIds(g.matches) == {"half", "again"} && ClaimIds(g.claims) == {"half", "again"};
  }

  lemma TwiceFolds(pack: TaskPack, l: Ledger, r: string, turn: string)
    requires r !in l.relations && r !in l.partials && AllFactsKnown(pack, TwiceClaims(r))
    ensures var p := ClaimFold(pack, turn, NoProgress(l), TwiceClaims(r));
            && p.ledger == l.(partials := p.ledger.partials) && p.newPartials == [r] && p.newFacts == []
            && p.newRelations == [] && p.claimEvidence.Keys == {"half", "again"}
  {
    var claims := TwiceClaims(r);
    assert AllFactsKnown(pack, claims[..1]) && AllFactsKnown(pack, claims[..1][..0]);
    assert ClaimFold(pack, turn, NoProgress(l), claims[..1][..0]) == NoProgress(l);
    var p := ClaimStep(pack, turn, NoProgress(l), claims[0]);
    assert ClaimFold(pack, turn, NoProgress(l), claims[..1]) == p;
    assert ClaimFold(pack, turn, NoProgress(l), claims) == ClaimStep(pack, turn, p, claims[1]);
    hide ClaimFold, AllFactsKnown;
  }

  /** Claiming the half twice records it once, under one evidence id for both claims. */
  lemma TwiceApplies(pack: TaskPack, l: Ledger, r: string, turn: string)
    requires Usable(pack, l) && GoodTurnId(turn) && r in pack.relations && r !in l.relations && r !in l.partials
    ensures var a := Apply(pack, l, TwiceHalf(r), turn);
            && a.Ok? && Sound(pack, l, a.value) && !a.value.NewCanonical() && a.value.NewPartial()
            && a.value.Ledger() == l.(partials := a.value.Ledger().partials)
            && !NoRepeats(Given(TwiceHalf(r).claims, a.value.progress.claimEvidence))
  {
    hide Pairs, OneMatchPerClaim, AllFactsKnown, WellFormed, Sound, CompletionOf, Complete, ClaimFold, NoRepeats, Given,
         BoundTo, TwiceHalf;
    TwiceIsMatched(pack, r);
    TwiceFolds(pack, l, r, turn);
    TwiceIsStorable(pack, l, r, turn);
    ApplyIsSound(pack, l, TwiceHalf(r), turn);
    EvidenceRepeatsIff(pack, l, TwiceHalf(r), turn);
    assert SameEvidence(TwiceClaims(r)[0], TwiceClaims(r)[1]);
  }

  lemma TwiceIsStorable(pack: TaskPack, l: Ledger, r: string, turn: string)
    requires Usable(pack, l) && GoodTurnId(turn) && r in pack.relations
    requires OneMatchPerClaim(TwiceHalf(r)) && Pairs(TwiceHalf(r)) == TwiceClaims(r)
    requires AllFactsKnown(pack, TwiceClaims(r))
    ensures Apply(pack, l, TwiceHalf(r), turn).Ok?
    ensures forall i, j :: 0 <= i < j < |TwiceHalf(r).claims| ==>
              TwiceHalf(r).claims[i].claimId != TwiceHalf(r).claims[j].claimId
  {
    hide Pairs, OneMatchPerClaim, AllFactsKnown, WellFormed, ClaimFold, BoundTo, EvidenceFor;
    assert forall a | a in TwiceClaims(r) :: !AddsAuxiliary(a.claim);
    assert AuxiliaryIds(turn, TwiceClaims(r)) == {};
    assert l.auxiliary.Keys + {} == l.auxiliary.Keys && |l.auxiliary| == |l.auxiliary.Keys|;
    ApplyIff(pack, l, TwiceHalf(r), turn);
  }

  // ----- saying it -----

  /** The spoken turn that makes these claims. */
  function Said(turn: string, move: Move, g: Guarded): Turn {
    Turn.Turn(turn, Speech(Admission(Response(LearningResponse, move, NoSupport, None, true, g.claims), g.matches)))
  }

  /** What saying it means, given what the ledger makes of it. */
  function SaidSemantics(move: Move, g: Guarded, a: Applied): Semantics {
    Semantics(Response(LearningResponse, move, NoSupport, None, true, g.claims), a, MainRoute, SonnetLow, None, false)
  }

  lemma SaidIsInterpreted(pack: TaskPack, ladder: Ladder, subgoal: string, l: Ledger, turn: string, move: Move,
      g: Guarded)
    requires forall p | p in pack.l3Plans :: |p.targets| == 1
    requires move in {NoMove, RequestMormiAnswer} && Apply(pack, l, g, turn).Ok?
    ensures var r := Interpret(pack, ladder, subgoal, l, Said(turn, move, g));
            r == Ok(SaidSemantics(move, g, Apply(pack, l, g, turn).value))
  {
    hide Apply;
  }
}
