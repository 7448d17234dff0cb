/** The monotone reasoning ledger: verified facts and relations, partial attempts and auxiliary evidence, and the
    two operations that write it. */
module Ledgers {
  import opened Common
  import opened Content

  datatype MatchKind = Exact | UnicodeNfc

  /** A claim's evidence as a non-empty range of the child's utterance. */
  datatype Range = Range(start: nat, end: nat, kind: MatchKind)

  datatype Verdict = Correct | Sufficient | Partial | Incorrect | Uncertain

  datatype Claim =
    | FactClaim(claimId: string, factId: string, span: string, verdict: Verdict)
    | RelationClaim(claimId: string, relationId: string, span: string, verdict: Verdict)
    | AuxiliaryClaim(claimId: string, span: string, verdict: Verdict)

  datatype SourceKind = ChoiceSource | JointSource

  /** Evidence ids are SHA-256 digests of these fields; the digest is taken to be injective, so the fields stand
      for it. */
  datatype EvidenceId =
    | LiteralId(turn: string, range: Range, claimKind: string, target: string, verdict: Verdict)
    | StructuredId(turn: string, source: SourceKind, key: Key, value: Option<Value>)

  datatype Evidence =
    | Literal(id: EvidenceId, turn: string, range: Range, verdict: Verdict)
    | Structured(id: EvidenceId, turn: string, source: SourceKind, key: Key)

  datatype FactEntry = FactEntry(value: Value, evidence: seq<Evidence>)

  datatype Ledger = Ledger(
    binding: Binding,
    facts: map<string, FactEntry>,
    relations: map<string, seq<Evidence>>,
    partials: map<string, seq<Evidence>>,
    auxiliary: map<EvidenceId, Evidence>)

  function EmptyLedger(pack: TaskPack): Ledger {
    Ledger(pack.binding, map[], map[], map[], map[])
  }

  function Ids(evidence: seq<Evidence>): (r: set<EvidenceId>) {
    set e | e in evidence :: e.id
  }

  ghost predicate UniqueIds(evidence: seq<Evidence>) {
    forall i, j :: 0 <= i < j < |evidence| ==> evidence[i].id != evidence[j].id
  }

  /** One entry's evidence list: non-empty, ids unique, structured evidence naming its own target. */
  ghost predicate GoodEvidence(k: Key, evidence: seq<Evidence>) {
    && evidence != []
    && UniqueIds(evidence)
    && (forall e | e in evidence && e.Structured? :: e.key == k)
  }

  /** What the stored model's validators demand of every entry. */
  ghost predicate WellFormed(l: Ledger) {
    && (forall f | f in l.facts :: GoodEvidence(TargetKey(FactTarget, f), l.facts[f].evidence))
    && (forall r | r in l.relations :: GoodEvidence(TargetKey(RelationTarget, r), l.relations[r]))
    && (forall r | r in l.partials :: GoodEvidence(TargetKey(RelationTarget, r), l.partials[r]))
    && (forall a | a in l.auxiliary :: l.auxiliary[a].id == a)
  }

  /** The binding check made before every use of a ledger. */
  predicate BoundTo(l: Ledger, pack: TaskPack) {
    && l.binding == pack.binding
    && (forall f | f in l.facts :: f in pack.facts)
    && (forall r | r in l.relations :: r in pack.relations)
    && (forall r | r in l.partials :: r in pack.relations)
    && (forall f | f in l.facts :: pack.facts[f].Accepts(l.facts[f].value))
  }

  /** Verified targets, as keys. */
  function Verified(l: Ledger): set<Key> {
    (set f | f in l.facts :: TargetKey(FactTarget, f)) + (set r | r in l.relations :: TargetKey(RelationTarget, r))
  }

  function Without<V>(ids: seq<string>, known: map<string, V>): (r: seq<string>)
    ensures forall x :: x in r <==> x in ids && x !in known
  {
    if ids == [] then []
    else
      var rest := Without(ids[1..], known);
      assert ids == [ids[0]] + ids[1..];
      if ids[0] in known then rest else [ids[0]] + rest
  }

  datatype Completion = Completion(remainingFacts: seq<string>, remainingRelations: seq<string>)
  {
    predicate Complete() { remainingFacts == [] && remainingRelations == [] }
  }

  /** `reasoning_completion_v2` after its binding check. */
  function CompletionOf(pack: TaskPack, l: Ledger): Completion {
    Completion(Without(pack.requiredFacts, l.facts), Without(pack.requiredRelations, l.relations))
  }

  predicate Complete(pack: TaskPack, l: Ledger) {
    CompletionOf(pack, l).Complete()
  }

  lemma EmptyIff(ids: seq<string>)
    ensures ids == [] <==> forall x :: x !in ids
  {
    if ids != [] {
      assert ids[0] in ids;
    }
  }

  /** Completion means every required target is verified, and nothing else. */
  lemma CompleteIffRequiredVerified(pack: TaskPack, l: Ledger)
    ensures Complete(pack, l) <==> pack.Required() <= Verified(l)
  {
    var c := CompletionOf(pack, l);
    EmptyIff(c.remainingFacts);
    EmptyIff(c.remainingRelations);
    if !c.Complete() {
      if f :| f in c.remainingFacts {
        assert TargetKey(FactTarget, f) in pack.Required() - Verified(l);
      } else {
        var r :| r in c.remainingRelations;
        assert TargetKey(RelationTarget, r) in pack.Required() - Verified(l);
      }
    }
  }

  // ----- one recorded piece of evidence -----

  /** The local dictionaries and lists both operations build up. */
  datatype Progress = Progress(
    ledger: Ledger,
    newFacts: seq<string>,
    newRelations: seq<string>,
    newMilestones: seq<string>,
    newFactEvidence: seq<EvidenceId>,
    newRelationEvidence: seq<EvidenceId>,
    newPartials: seq<string>,
    newPartialEvidence: seq<EvidenceId>,
    newAuxiliary: seq<EvidenceId>,
    claimEvidence: map<string, EvidenceId>,
    ignored: seq<string>)

  function NoProgress(l: Ledger): Progress {
    Progress(l, [], [], [], [], [], [], [], [], map[], [])
  }

  function AddFact(p: Progress, f: string, value: Value, milestone: bool, e: Evidence): Progress {
    if f !in p.ledger.facts then
      p.(ledger := p.ledger.(facts := p.ledger.facts[f := FactEntry(value, [e])]),
         newFacts := p.newFacts + [f],
         newMilestones := if milestone then p.newMilestones + [f] else p.newMilestones,
         newFactEvidence := p.newFactEvidence + [e.id])
    else if e.id !in Ids(p.ledger.facts[f].evidence) then
      var entry := p.ledger.facts[f];
      p.(ledger := p.ledger.(facts := p.ledger.facts[f := entry.(evidence := entry.evidence + [e])]),
         newFactEvidence := p.newFactEvidence + [e.id])
    else p
  }

  function AddRelation(p: Progress, r: string, e: Evidence): Progress {
    if r !in p.ledger.relations then
      p.(ledger := p.ledger.(relations := p.ledger.relations[r := [e]]),
         newRelations := p.newRelations + [r],
         newRelationEvidence := p.newRelationEvidence + [e.id])
    else if e.id !in Ids(p.ledger.relations[r]) then
      p.(ledger := p.ledger.(relations := p.ledger.relations[r := p.ledger.relations[r] + [e]]),
         newRelationEvidence := p.newRelationEvidence + [e.id])
    else p
  }

  function AddPartial(p: Progress, r: string, e: Evidence): Progress {
    if r !in p.ledger.partials then
      p.(ledger := p.ledger.(partials := p.ledger.partials[r := [e]]),
         newPartials := p.newPartials + [r],
         newPartialEvidence := p.newPartialEvidence + [e.id])
    else if e.id !in Ids(p.ledger.partials[r]) then
      p.(ledger := p.ledger.(partials := p.ledger.partials[r := p.ledger.partials[r] + [e]]),
         newPartialEvidence := p.newPartialEvidence + [e.id])
    else p
  }

  function AddAuxiliary(p: Progress, e: Evidence): Progress {
    if e.id in p.ledger.auxiliary then p
    else p.(ledger := p.ledger.(auxiliary := p.ledger.auxiliary[e.id := e]), newAuxiliary := p.newAuxiliary + [e.id])
  }

  // ----- admitted claims -----

  datatype Admitted = Admitted(claim: Claim, range: Range)

  function KindName(c: Claim): string {
    match c
    case FactClaim(_, _, _, _) => "fact"
    case RelationClaim(_, _, _, _) => "relation"
    case AuxiliaryClaim(_, _, _) => "auxiliary"
  }

  function TargetName(c: Claim): string {
    match c
    case FactClaim(_, f, _, _) => f
    case RelationClaim(_, r, _, _) => r
    case AuxiliaryClaim(_, _, _) => "open"
  }

  function EvidenceFor(turn: string, a: Admitted): Evidence {
    Literal(LiteralId(turn, a.range, KindName(a.claim), TargetName(a.claim), a.claim.verdict), turn, a.range,
      a.claim.verdict)
  }

  /** Claims without effect: incorrect or uncertain ones, and partial attempts at a relation already verified. */
  predicate Ignored(l: Ledger, c: Claim) {
    match c
    case FactClaim(_, _, _, v) => v != Correct
    case RelationClaim(_, r, _, v) => if v == Partial then r in l.relations else v !in {Correct, Sufficient}
    case AuxiliaryClaim(_, _, v) => v !in {Correct, Sufficient, Partial}
  }

  /** A correct claim about a fact the graph does not have: a missing-key error in the loop. */
  predicate UnknownFactClaim(pack: TaskPack, c: Claim) {
    c.FactClaim? && c.verdict == Correct && c.factId !in pack.facts
  }

  function ClaimStep(pack: TaskPack, turn: string, p: Progress, a: Admitted): Progress
    requires !UnknownFactClaim(pack, a.claim)
  {
    var e := EvidenceFor(turn, a);
    if Ignored(p.ledger, a.claim) then p.(ignored := p.ignored + [a.claim.claimId])
    else
      var q := p.(claimEvidence := p.claimEvidence[a.claim.claimId := e.id]);
      match a.claim
      case FactClaim(_, f, _, _) => AddFact(q, f, pack.facts[f].value, pack.facts[f].milestone, e)
      case RelationClaim(_, r, _, v) => if v == Partial then AddPartial(q, r, e) else AddRelation(q, r, e)
      case AuxiliaryClaim(_, _, _) => AddAuxiliary(q, e)
  }

  predicate AllFactsKnown(pack: TaskPack, claims: seq<Admitted>) {
    forall a | a in claims :: !UnknownFactClaim(pack, a.claim)
  }

  function ClaimFold(pack: TaskPack, turn: string, p: Progress, claims: seq<Admitted>): Progress
    requires AllFactsKnown(pack, claims)
  {
    if claims == [] then p
    else
      var last := |claims| - 1;
      assert claims[last] in claims;
      ClaimStep(pack, turn, ClaimFold(pack, turn, p, claims[..last]), claims[last])
  }

  /** Applying `a` and then `b` is applying `a + b`. */
  lemma {:induction false} ClaimFoldAppend(pack: TaskPack, turn: string, p: Progress, a: seq<Admitted>,
      b: seq<Admitted>)
    requires AllFactsKnown(pack, a) && AllFactsKnown(pack, b)
    ensures AllFactsKnown(pack, a + b)
    ensures ClaimFold(pack, turn, p, a + b) == ClaimFold(pack, turn, ClaimFold(pack, turn, p, a), b)
  {
    if b == [] {
      assert a + b == a;
    } else {
      var last := |b| - 1;
      ClaimFoldAppend(pack, turn, p, a, b[..last]);
      assert (a + b)[..|a + b| - 1] == a + b[..last];
      assert (a + b)[|a + b| - 1] == b[last];
    }
  }

  /** No two claims share an id. */
  ghost predicate DistinctClaims(claims: seq<Admitted>) {
    forall i, j :: 0 <= i < j < |claims| ==> claims[i].claim.claimId != claims[j].claim.claimId
  }

  /** Verdicts that can have an effect. */
  predicate Positive(v: Verdict) { v in {Correct, Sufficient, Partial} }

  /** What one claim records. */
  lemma StepRecords(pack: TaskPack, turn: string, p: Progress, a: Admitted)
    requires !UnknownFactClaim(pack, a.claim)
    ensures ClaimStep(pack, turn, p, a).claimEvidence
         == if Ignored(p.ledger, a.claim) then p.claimEvidence
            else p.claimEvidence[a.claim.claimId := EvidenceFor(turn, a).id]
    ensures !Ignored(p.ledger, a.claim) ==> Positive(a.claim.verdict)
  {
    hide EvidenceFor;
  }

  lemma {:induction false} RecordedAreClaimed(pack: TaskPack, turn: string, p: Progress, claims: seq<Admitted>,
      id: string)
    requires AllFactsKnown(pack, claims) && id !in p.claimEvidence
    requires id in ClaimFold(pack, turn, p, claims).claimEvidence
    ensures exists a | a in claims :: a.claim.claimId == id
  {
    hide ClaimStep, Ignored, EvidenceFor, UnknownFactClaim;
    if claims != [] {
      var last := |claims| - 1;
      assert claims == claims[..last] + [claims[last]];
      StepRecords(pack, turn, ClaimFold(pack, turn, p, claims[..last]), claims[last]);
      if claims[last].claim.claimId != id {
        RecordedAreClaimed(pack, turn, p, claims[..last], id);
      }
    }
  }

  /** A claim with an effect is recorded under the id of its own evidence. */
  lemma {:induction false} ClaimIsRecorded(pack: TaskPack, turn: string, p: Progress, claims: seq<Admitted>, i: nat)
    requires AllFactsKnown(pack, claims) && DistinctClaims(claims) && i < |claims|
    requires claims[i].claim.claimId !in p.claimEvidence
    ensures var recorded := ClaimFold(pack, turn, p, claims).claimEvidence;
            claims[i].claim.claimId in recorded ==>
              recorded[claims[i].claim.claimId] == EvidenceFor(turn, claims[i]).id && Positive(claims[i].claim.verdict)
  {
    hide ClaimStep, Ignored, EvidenceFor, UnknownFactClaim, Positive;
    var last := |claims| - 1;
    var front, id := claims[..last], claims[i].claim.claimId;
    assert claims[last] in claims && AllFactsKnown(pack, front);
    StepRecords(pack, turn, ClaimFold(pack, turn, p, front), claims[last]);
    if i < last {
      assert front[i] == claims[i];
      ClaimIsRecorded(pack, turn, p, front, i);
    } else if id in ClaimFold(pack, turn, p, front).claimEvidence {
      RecordedAreClaimed(pack, turn, p, front, id);
    }
  }

  // ----- growth -----

  /** `m` holds everything `l` held: same binding, values fixed at first write, evidence lists only appended to. */
  ghost predicate Extends(m: Ledger, l: Ledger) {
    && m.binding == l.binding
    && (forall f | f in l.facts :: f in m.facts && m.facts[f].value == l.facts[f].value
         && l.facts[f].evidence <= m.facts[f].evidence)
    && (forall r | r in l.relations :: r in m.relations && l.relations[r] <= m.relations[r])
    && (forall r | r in l.partials :: r in m.partials && l.partials[r] <= m.partials[r])
    && (forall a | a in l.auxiliary :: a in m.auxiliary && m.auxiliary[a] == l.auxiliary[a])
  }

  lemma ExtendsTransitive(c: Ledger, b: Ledger, a: Ledger)
    requires Extends(c, b) && Extends(b, a)
    ensures Extends(c, a)
  {}

  lemma ExtendsVerified(m: Ledger, l: Ledger)
    requires Extends(m, l)
    ensures Verified(l) <= Verified(m)
  {}

  /** The reported new ids are exactly the keys added since `start`, once each. */
  ghost predicate ExactDelta(start: Ledger, p: Progress) {
    && Unique(p.newFacts) && Elements(p.newFacts) == p.ledger.facts.Keys - start.facts.Keys
    && Unique(p.newRelations) && Elements(p.newRelations) == p.ledger.relations.Keys - start.relations.Keys
    && Unique(p.newPartials) && Elements(p.newPartials) == p.ledger.partials.Keys - start.partials.Keys
    && Unique(p.newAuxiliary) && Elements(p.newAuxiliary) == p.ledger.auxiliary.Keys - start.auxiliary.Keys
  }

  /** Everything promised of a ledger under construction since `start`. */
  ghost predicate Grown(start: Ledger, p: Progress) {
    Extends(p.ledger, start) && ExactDelta(start, p) && WellFormed(p.ledger)
  }

  lemma AppendKeepsGood(k: Key, evidence: seq<Evidence>, e: Evidence)
    requires GoodEvidence(k, evidence) && e.id !in Ids(evidence)
    requires e.Structured? ==> e.key == k
    ensures GoodEvidence(k, evidence + [e])
  {}

  lemma SingleIsGood(k: Key, e: Evidence)
    requires e.Structured? ==> e.key == k
    ensures GoodEvidence(k, [e])
  {}

  /** A list reporting exactly the keys beyond `start` still does so after one new key is appended to both. */
  lemma ReportNewKey<T>(start: set<T>, keys: set<T>, reported: seq<T>, x: T)
    requires Unique(reported) && Elements(reported) == keys - start
    requires x !in keys && start <= keys
    ensures Unique(reported + [x]) && Elements(reported + [x]) == keys + {x} - start
  {
    assert x !in Elements(reported);
    ElementsSnoc(reported, x);
  }

  /** The facts after one piece of evidence for `f`. */
  function FactsWith(facts: map<string, FactEntry>, f: string, value: Value, e: Evidence): map<string, FactEntry> {
    if f !in facts then facts[f := FactEntry(value, [e])]
    else if e.id !in Ids(facts[f].evidence) then facts[f := facts[f].(evidence := facts[f].evidence + [e])]
    else facts
  }

  lemma AddFactLedger(p: Progress, f: string, value: Value, milestone: bool, e: Evidence)
    ensures AddFact(p, f, value, milestone, e).ledger == p.ledger.(facts := FactsWith(p.ledger.facts, f, value, e))
  {}

  /** The entries of a relation map after one piece of evidence for `r`. */
  function EvidenceWith(entries: map<string, seq<Evidence>>, r: string, e: Evidence): map<string, seq<Evidence>> {
    if r !in entries then entries[r := [e]]
    else if e.id !in Ids(entries[r]) then entries[r := entries[r] + [e]]
    else entries
  }

  lemma AddRelationLedger(p: Progress, r: string, e: Evidence)
    ensures AddRelation(p, r, e).ledger == p.ledger.(relations := EvidenceWith(p.ledger.relations, r, e))
  {}

  lemma AddPartialLedger(p: Progress, r: string, e: Evidence)
    ensures AddPartial(p, r, e).ledger == p.ledger.(partials := EvidenceWith(p.ledger.partials, r, e))
  {}

  /** One more piece of evidence only extends its entry, and keeps every entry good. */
  lemma EvidenceWithExtends(entries: map<string, seq<Evidence>>, r: string, e: Evidence)
    requires forall x | x in entries :: GoodEvidence(TargetKey(RelationTarget, x), entries[x])
    requires e.Structured? ==> e.key == TargetKey(RelationTarget, r)
    ensures var q := EvidenceWith(entries, r, e);
            && (forall x | x in entries :: x in q && entries[x] <= q[x])
            && (forall x | x in q :: GoodEvidence(TargetKey(RelationTarget, x), q[x]))
  {}

  lemma FactsWithExtends(facts: map<string, FactEntry>, f: string, value: Value, e: Evidence)
    requires forall x | x in facts :: GoodEvidence(TargetKey(FactTarget, x), facts[x].evidence)
    requires e.Structured? ==> e.key == TargetKey(FactTarget, f)
    ensures var q := FactsWith(facts, f, value, e);
            && (forall x | x in facts :: x in q && q[x].value == facts[x].value && facts[x].evidence <= q[x].evidence)
            && (forall x | x in q :: GoodEvidence(TargetKey(FactTarget, x), q[x].evidence))
  {
    hide GoodEvidence, Ids;
    if f !in facts {
      SingleIsGood(TargetKey(FactTarget, f), e);
    } else if e.id !in Ids(facts[f].evidence) {
      AppendKeepsGood(TargetKey(FactTarget, f), facts[f].evidence, e);
    }
  }

  lemma AddFactExtends(p: Progress, f: string, value: Value, milestone: bool, e: Evidence)
    requires WellFormed(p.ledger)
    requires e.Structured? ==> e.key == TargetKey(FactTarget, f)
    ensures var q := AddFact(p, f, value, milestone, e);
            Extends(q.ledger, p.ledger) && WellFormed(q.ledger)
  {
    hide AddFact, FactsWith, GoodEvidence;
    AddFactLedger(p, f, value, milestone, e);
    FactsWithExtends(p.ledger.facts, f, value, e);
  }

  lemma AddRelationExtends(p: Progress, r: string, e: Evidence)
    requires WellFormed(p.ledger)
    requires e.Structured? ==> e.key == TargetKey(RelationTarget, r)
    ensures var q := AddRelation(p, r, e);
            Extends(q.ledger, p.ledger) && WellFormed(q.ledger)
  {
    hide AddRelation, EvidenceWith, GoodEvidence;
    AddRelationLedger(p, r, e);
    EvidenceWithExtends(p.ledger.relations, r, e);
  }

  lemma AddPartialExtends(p: Progress, r: string, e: Evidence)
    requires WellFormed(p.ledger) && e.Literal?
    ensures var q := AddPartial(p, r, e);
            Extends(q.ledger, p.ledger) && WellFormed(q.ledger)
  {
    hide AddPartial, EvidenceWith, GoodEvidence;
    AddPartialLedger(p, r, e);
    EvidenceWithExtends(p.ledger.partials, r, e);
  }

  lemma AddFactDelta(start: Ledger, p: Progress, f: string, value: Value, milestone: bool, e: Evidence)
    requires ExactDelta(start, p) && start.facts.Keys <= p.ledger.facts.Keys
    ensures ExactDelta(start, AddFact(p, f, value, milestone, e))
  {
    var q := AddFact(p, f, value, milestone, e);
    if f !in p.ledger.facts {
      ReportNewKey(start.facts.Keys, p.ledger.facts.Keys, p.newFacts, f);
      assert q.ledger.facts.Keys == p.ledger.facts.Keys + {f};
    } else {
      assert q.ledger.facts.Keys == p.ledger.facts.Keys;
    }
  }

  lemma AddRelationDelta(start: Ledger, p: Progress, r: string, e: Evidence)
    requires ExactDelta(start, p) && start.relations.Keys <= p.ledger.relations.Keys
    ensures ExactDelta(start, AddRelation(p, r, e))
  {
    var q := AddRelation(p, r, e);
    if r !in p.ledger.relations {
      ReportNewKey(start.relations.Keys, p.ledger.relations.Keys, p.newRelations, r);
      assert q.ledger.relations.Keys == p.ledger.relations.Keys + {r};
    } else {
      assert q.ledger.relations.Keys == p.ledger.relations.Keys;
    }
  }

  lemma AddPartialDelta(start: Ledger, p: Progress, r: string, e: Evidence)
    requires ExactDelta(start, p) && start.partials.Keys <= p.ledger.partials.Keys
    ensures ExactDelta(start, AddPartial(p, r, e))
  {
    var q := AddPartial(p, r, e);
    if r !in p.ledger.partials {
      ReportNewKey(start.partials.Keys, p.ledger.partials.Keys, p.newPartials, r);
      assert q.ledger.partials.Keys == p.ledger.partials.Keys + {r};
    } else {
      assert q.ledger.partials.Keys == p.ledger.partials.Keys;
    }
  }

  lemma AddAuxiliaryDelta(start: Ledger, p: Progress, e: Evidence)
    requires ExactDelta(start, p) && start.auxiliary.Keys <= p.ledger.auxiliary.Keys
    ensures ExactDelta(start, AddAuxiliary(p, e))
  {
    var q := AddAuxiliary(p, e);
    if e.id !in p.ledger.auxiliary {
      ReportNewKey(start.auxiliary.Keys, p.ledger.auxiliary.Keys, p.newAuxiliary, e.id);
      assert q.ledger.auxiliary.Keys == p.ledger.auxiliary.Keys + {e.id};
    } else {
      assert q.ledger.auxiliary.Keys == p.ledger.auxiliary.Keys;
    }
  }

  lemma AddFactGrows(start: Ledger, p: Progress, f: string, value: Value, milestone: bool, e: Evidence)
    requires Grown(start, p)
    requires e.Structured? ==> e.key == TargetKey(FactTarget, f)
    ensures Grown(start, AddFact(p, f, value, milestone, e))
  {
    var q := AddFact(p, f, value, milestone, e);
    AddFactDelta(start, p, f, value, milestone, e);
    AddFactExtends(p, f, value, milestone, e);
    ExtendsTransitive(q.ledger, p.ledger, start);
  }

  lemma AddRelationGrows(start: Ledger, p: Progress, r: string, e: Evidence)
    requires Grown(start, p)
    requires e.Structured? ==> e.key == TargetKey(RelationTarget, r)
    ensures Grown(start, AddRelation(p, r, e))
  {
    var q := AddRelation(p, r, e);
    AddRelationDelta(start, p, r, e);
    AddRelationExtends(p, r, e);
    ExtendsTransitive(q.ledger, p.ledger, start);
  }

  lemma AddPartialGrows(start: Ledger, p: Progress, r: string, e: Evidence)
    requires Grown(start, p) && e.Literal?
    ensures Grown(start, AddPartial(p, r, e))
  {
    var q := AddPartial(p, r, e);
    AddPartialDelta(start, p, r, e);
    AddPartialExtends(p, r, e);
    ExtendsTransitive(q.ledger, p.ledger, start);
  }

  lemma AddAuxiliaryGrows(start: Ledger, p: Progress, e: Evidence)
    requires Grown(start, p)
    ensures Grown(start, AddAuxiliary(p, e))
  {
    AddAuxiliaryDelta(start, p, e);
  }

  lemma ClaimStepGrows(pack: TaskPack, turn: string, start: Ledger, p: Progress, a: Admitted)
    requires !UnknownFactClaim(pack, a.claim) && Grown(start, p)
    ensures Grown(start, ClaimStep(pack, turn, p, a))
  {
    var e := EvidenceFor(turn, a);
    if !Ignored(p.ledger, a.claim) {
      var q := p.(claimEvidence := p.claimEvidence[a.claim.claimId := e.id]);
      assert Grown(start, q);
      match a.claim
      case FactClaim(_, f, _, _) => AddFactGrows(start, q, f, pack.facts[f].value, pack.facts[f].milestone, e);
      case RelationClaim(_, r, _, v) =>
        if v == Partial { AddPartialGrows(start, q, r, e); } else { AddRelationGrows(start, q, r, e); }
      case AuxiliaryClaim(_, _, _) => AddAuxiliaryGrows(start, q, e);
    }
  }

  /** Applying any claims only adds to the ledger, keeps evidence ids unique and reports exactly the new keys. */
  lemma {:induction false} ClaimFoldGrows(pack: TaskPack, turn: string, start: Ledger, p: Progress,
      claims: seq<Admitted>)
    requires AllFactsKnown(pack, claims) && Grown(start, p)
    ensures Grown(start, ClaimFold(pack, turn, p, claims))
  {
    if claims != [] {
      var last := |claims| - 1;
      assert claims[last] in claims;
      ClaimFoldGrows(pack, turn, start, p, claims[..last]);
      ClaimStepGrows(pack, turn, start, ClaimFold(pack, turn, p, claims[..last]), claims[last]);
    }
  }

  lemma NoProgressGrown(l: Ledger)
    requires WellFormed(l)
    ensures Grown(l, NoProgress(l))
  {}

  // ----- replay -----

  /** The ledger already holds everything this claim can add. */
  predicate Absorbed(turn: string, l: Ledger, a: Admitted) {
    Ignored(l, a.claim) ||
    var e := EvidenceFor(turn, a);
    match a.claim
    case FactClaim(_, f, _, _) => f in l.facts && e.id in Ids(l.facts[f].evidence)
    case RelationClaim(_, r, _, v) =>
      if v == Partial then r in l.partials && e.id in Ids(l.partials[r])
      else r in l.relations && e.id in Ids(l.relations[r])
    case AuxiliaryClaim(_, _, _) => e.id in l.auxiliary
  }

  lemma IdsAppend(a: seq<Evidence>, e: Evidence)
    ensures Ids(a + [e]) == Ids(a) + {e.id}
  {}

  lemma StepAbsorbs(pack: TaskPack, turn: string, p: Progress, a: Admitted)
    requires !UnknownFactClaim(pack, a.claim)
    ensures Absorbed(turn, ClaimStep(pack, turn, p, a).ledger, a)
  {
    var e := EvidenceFor(turn, a);
    var empty: seq<Evidence> := [];
    IdsAppend(empty, e);
    assert empty + [e] == [e];
    match a.claim
    case FactClaim(_, f, _, _) =>
      if f in p.ledger.facts { IdsAppend(p.ledger.facts[f].evidence, e); }
    case RelationClaim(_, r, _, v) =>
      if r in p.ledger.relations { IdsAppend(p.ledger.relations[r], e); }
      if r in p.ledger.partials { IdsAppend(p.ledger.partials[r], e); }
    case AuxiliaryClaim(_, _, _) =>
  }

  lemma AbsorbedPersists(turn: string, m: Ledger, l: Ledger, a: Admitted)
    requires Extends(m, l) && Absorbed(turn, l, a)
    ensures Absorbed(turn, m, a)
  {}

  lemma {:induction false} FoldAbsorbs(pack: TaskPack, turn: string, p: Progress, claims: seq<Admitted>)
    requires AllFactsKnown(pack, claims) && WellFormed(p.ledger)
    ensures forall a | a in claims :: Absorbed(turn, ClaimFold(pack, turn, p, claims).ledger, a)
  {
    if claims != [] {
      var last := |claims| - 1;
      assert claims[last] in claims;
      var before := ClaimFold(pack, turn, p, claims[..last]);
      FoldAbsorbs(pack, turn, p, claims[..last]);
      FoldWellFormed(pack, turn, p, claims[..last]);
      StepAbsorbs(pack, turn, before, claims[last]);
      StepExtends(pack, turn, before, claims[last]);
      forall a | a in claims ensures Absorbed(turn, ClaimFold(pack, turn, p, claims).ledger, a) {
        if a in claims[..last] {
          AbsorbedPersists(turn, ClaimFold(pack, turn, p, claims).ledger, before.ledger, a);
        }
      }
    }
  }

  /** The ledger a claim produces does not depend on what was already reported. */
  lemma StepLedgerOnly(pack: TaskPack, turn: string, p: Progress, q: Progress, a: Admitted)
    requires !UnknownFactClaim(pack, a.claim) && p.ledger == q.ledger
    ensures ClaimStep(pack, turn, p, a).ledger == ClaimStep(pack, turn, q, a).ledger
  {}

  lemma StepExtends(pack: TaskPack, turn: string, p: Progress, a: Admitted)
    requires !UnknownFactClaim(pack, a.claim) && WellFormed(p.ledger)
    ensures Extends(ClaimStep(pack, turn, p, a).ledger, p.ledger) && WellFormed(ClaimStep(pack, turn, p, a).ledger)
  {
    var q := NoProgress(p.ledger);
    NoProgressGrown(p.ledger);
    StepLedgerOnly(pack, turn, p, q, a);
    ClaimStepGrows(pack, turn, p.ledger, q, a);
  }

  lemma {:induction false} FoldWellFormed(pack: TaskPack, turn: string, p: Progress, claims: seq<Admitted>)
    requires AllFactsKnown(pack, claims) && WellFormed(p.ledger)
    ensures WellFormed(ClaimFold(pack, turn, p, claims).ledger)
  {
    if claims != [] {
      var last := |claims| - 1;
      assert claims[last] in claims;
      FoldWellFormed(pack, turn, p, claims[..last]);
      StepExtends(pack, turn, ClaimFold(pack, turn, p, claims[..last]), claims[last]);
    }
  }

  /** Same ledger and same reported news; only the turn-local claim correlation may differ. */
  predicate NoNews(p: Progress, q: Progress) {
    && q.ledger == p.ledger
    && q.newFacts == p.newFacts && q.newRelations == p.newRelations && q.newMilestones == p.newMilestones
    && q.newFactEvidence == p.newFactEvidence && q.newRelationEvidence == p.newRelationEvidence
    && q.newPartials == p.newPartials && q.newPartialEvidence == p.newPartialEvidence
    && q.newAuxiliary == p.newAuxiliary
  }

  lemma {:induction false} AbsorbedFoldIsNoNews(pack: TaskPack, turn: string, p: Progress, claims: seq<Admitted>)
    requires AllFactsKnown(pack, claims)
    requires forall a | a in claims :: Absorbed(turn, p.ledger, a)
    ensures NoNews(p, ClaimFold(pack, turn, p, claims))
  {
    if claims != [] {
      var last := |claims| - 1;
      assert claims[last] in claims;
      AbsorbedFoldIsNoNews(pack, turn, p, claims[..last]);
    }
  }

  /** Replaying a turn changes nothing: no key, no evidence id, no reported progress. */
  lemma ReplayIsNoOp(pack: TaskPack, turn: string, l: Ledger, claims: seq<Admitted>)
    requires AllFactsKnown(pack, claims) && WellFormed(l)
    ensures var once := ClaimFold(pack, turn, NoProgress(l), claims).ledger;
            NoNews(NoProgress(once), ClaimFold(pack, turn, NoProgress(once), claims))
  {
    FoldAbsorbs(pack, turn, NoProgress(l), claims);
    AbsorbedFoldIsNoNews(pack, turn, NoProgress(ClaimFold(pack, turn, NoProgress(l), claims).ledger), claims);
  }

  // ----- what a turn verifies -----

  predicate VerifiesFact(c: Claim, f: string) {
    c.FactClaim? && c.factId == f && c.verdict == Correct
  }

  predicate VerifiesRelation(c: Claim, r: string) {
    c.RelationClaim? && c.relationId == r && c.verdict in {Correct, Sufficient}
  }

  lemma FactsWithVerifies(facts: map<string, FactEntry>, f: string, value: Value, e: Evidence, g: string)
    ensures var q := FactsWith(facts, f, value, e);
            && (g in q <==> g in facts || g == f)
            && (g in q ==> q[g].value == if g in facts then facts[g].value else value)
  {}

  lemma AddFactVerifies(p: Progress, f: string, value: Value, milestone: bool, e: Evidence, g: string)
    ensures var q := AddFact(p, f, value, milestone, e).ledger;
            && (g in q.facts <==> g in p.ledger.facts || g == f)
            && (g in q.facts ==> q.facts[g].value == if g in p.ledger.facts then p.ledger.facts[g].value else value)
            && q.relations == p.ledger.relations && q.partials == p.ledger.partials
  {
    hide FactsWith, AddFact;
    AddFactLedger(p, f, value, milestone, e);
    FactsWithVerifies(p.ledger.facts, f, value, e, g);
  }

  lemma AddRelationVerifies(p: Progress, r: string, e: Evidence)
    ensures var q := AddRelation(p, r, e).ledger;
            q.relations.Keys == p.ledger.relations.Keys + {r} && q.facts == p.ledger.facts
              && q.partials == p.ledger.partials
  {}

  lemma AddPartialRecords(p: Progress, r: string, e: Evidence)
    ensures var q := AddPartial(p, r, e).ledger;
            q.partials.Keys == p.ledger.partials.Keys + {r} && q.facts == p.ledger.facts
              && q.relations == p.ledger.relations
  {}

  lemma AddAuxiliaryFrame(p: Progress, e: Evidence)
    ensures var q := AddAuxiliary(p, e).ledger;
            q.partials == p.ledger.partials && q.facts == p.ledger.facts && q.relations == p.ledger.relations
  {}

  /** What one claim does to the verified and attempted targets. */
  lemma StepVerifies(pack: TaskPack, turn: string, p: Progress, a: Admitted, x: string)
    requires !UnknownFactClaim(pack, a.claim)
    ensures var q := ClaimStep(pack, turn, p, a).ledger;
            && (x in q.facts <==> x in p.ledger.facts || VerifiesFact(a.claim, x))
            && (x in q.facts && x !in p.ledger.facts ==> x in pack.facts && q.facts[x].value == pack.facts[x].value)
            && (x in p.ledger.facts ==> x in q.facts && q.facts[x].value == p.ledger.facts[x].value)
            && (x in q.relations <==> x in p.ledger.relations || VerifiesRelation(a.claim, x))
            && (x in q.partials <==>
                 x in p.ledger.partials || (AttemptsRelation(a.claim, x) && x !in p.ledger.relations))
  {
    hide AddFact, AddRelation, AddPartial, AddAuxiliary, EvidenceFor;
    if !Ignored(p.ledger, a.claim) {
      var e := EvidenceFor(turn, a);
      var q := p.(claimEvidence := p.claimEvidence[a.claim.claimId := e.id]);
      match a.claim
      case FactClaim(_, f, _, _) => AddFactVerifies(q, f, pack.facts[f].value, pack.facts[f].milestone, e, x);
      case RelationClaim(_, r, _, _) =>
        AddRelationVerifies(q, r, e);
        AddPartialRecords(q, r, e);
        assert forall m: map<string, seq<Evidence>> :: x in m <==> x in m.Keys;
      case AuxiliaryClaim(_, _, _) => AddAuxiliaryFrame(q, e);
    }
  }

  predicate AttemptsRelation(c: Claim, r: string) {
    c.RelationClaim? && c.relationId == r && c.verdict == Partial
  }

  /** A fact is verified afterwards iff it was before or some claim about it is correct, and a newly verified fact
      carries the reviewed value, never the child's. */
  lemma {:induction false} FactVerifiedIff(pack: TaskPack, turn: string, p: Progress, claims: seq<Admitted>, f: string)
    requires AllFactsKnown(pack, claims)
    ensures var q := ClaimFold(pack, turn, p, claims).ledger;
            && (f in q.facts <==> f in p.ledger.facts || exists a | a in claims :: VerifiesFact(a.claim, f))
            && (f in q.facts && f !in p.ledger.facts ==> f in pack.facts && q.facts[f].value == pack.facts[f].value)
            && (f in p.ledger.facts ==> f in q.facts && q.facts[f].value == p.ledger.facts[f].value)
  {
    hide ClaimStep, VerifiesFact, UnknownFactClaim;
    if claims != [] {
      var last := |claims| - 1;
      assert claims == claims[..last] + [claims[last]];
      assert claims[last] in claims;
      FactVerifiedIff(pack, turn, p, claims[..last], f);
      StepVerifies(pack, turn, ClaimFold(pack, turn, p, claims[..last]), claims[last], f);
    }
  }

  /** A relation is verified afterwards iff it was before or some claim about it is correct or sufficient. */
  lemma {:induction false} RelationVerifiedIff(pack: TaskPack, turn: string, p: Progress, claims: seq<Admitted>,
      r: string)
    requires AllFactsKnown(pack, claims)
    ensures r in ClaimFold(pack, turn, p, claims).ledger.relations <==>
            r in p.ledger.relations || exists a | a in claims :: VerifiesRelation(a.claim, r)
  {
    hide ClaimStep, VerifiesRelation, UnknownFactClaim;
    if claims != [] {
      var last := |claims| - 1;
      assert claims == claims[..last] + [claims[last]];
      assert claims[last] in claims;
      RelationVerifiedIff(pack, turn, p, claims[..last], r);
      StepVerifies(pack, turn, ClaimFold(pack, turn, p, claims[..last]), claims[last], r);
    }
  }

  /** Claim `i` is a partial attempt at the relation, made before any claim of the turn verified it. */
  ghost predicate AttemptedAt(claims: seq<Admitted>, i: nat, r: string)
    requires i < |claims|
  {
    AttemptsRelation(claims[i].claim, r) && forall a | a in claims[..i] :: !VerifiesRelation(a.claim, r)
  }

  /** A partial attempt is recorded iff the relation was not yet verified when the claim was read. */
  lemma {:induction false} PartialRecordedIff(pack: TaskPack, turn: string, p: Progress, claims: seq<Admitted>,
      r: string)
    requires AllFactsKnown(pack, claims)
    ensures r in ClaimFold(pack, turn, p, claims).ledger.partials <==>
            || r in p.ledger.partials
            || (r !in p.ledger.relations && exists i: nat :: i < |claims| && AttemptedAt(claims, i, r))
  {
    hide ClaimStep, VerifiesRelation, AttemptsRelation, UnknownFactClaim;
    if claims != [] {
      var last := |claims| - 1;
      var front := claims[..last];
      assert claims[last] in claims;
      PartialRecordedIff(pack, turn, p, front, r);
      RelationVerifiedIff(pack, turn, p, front, r);
      StepVerifies(pack, turn, ClaimFold(pack, turn, p, front), claims[last], r);
      forall i: nat | i < last ensures AttemptedAt(claims, i, r) <==> AttemptedAt(front, i, r) {
        assert front[..i] == claims[..i] && front[i] == claims[i];
      }
      assert claims[..last] == front;
      assert AttemptedAt(claims, last, r) <==> AttemptsRelation(claims[last].claim, r) && forall a | a in front ::
             !VerifiesRelation(a.claim, r);
    }
  }
}
