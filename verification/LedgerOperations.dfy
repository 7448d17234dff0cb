/** The two operations that write the ledger, what each guarantees, and ledger histories. */
module LedgerOperations {
  import opened Common
  import opened Content
  import opened Ledgers

  // ----- results -----

  datatype LedgerError =
    | BadTurnId
    | NotBound
    | MatchMismatch
    | UnknownFact
    | UnknownRelation
    | DuplicateRelation
    | WrongValue
    | TooMuchAuxiliary

  datatype Applied = Applied(progress: Progress, completion: Completion, becameTrue: bool)
  {
    function Ledger(): Ledger { progress.ledger }

    /** `has_new_canonical_progress` */
    predicate NewCanonical() { progress.newFacts != [] || progress.newRelations != [] }

    /** `has_new_partial_progress` */
    predicate NewPartial() { progress.newPartials != [] }
  }

  predicate GoodTurnId(turn: string) { 1 <= |turn| <= 100 }

  const MAX_AUXILIARY := 200

  function Finish(pack: TaskPack, before: Ledger, p: Progress): Result<Applied, LedgerError> {
    if |p.ledger.auxiliary| > MAX_AUXILIARY then Err(TooMuchAuxiliary)
    else if !BoundTo(p.ledger, pack) then Err(UnknownRelation)
    else
      var done := CompletionOf(pack, p.ledger);
      Ok(Applied(p, done, done.Complete() && !Complete(pack, before)))
  }

  // ----- admitted understanding -----

  datatype Match = Match(claimId: string, range: Range)

  datatype Guarded = Guarded(claims: seq<Claim>, matches: seq<Match>)

  function MatchIds(matches: seq<Match>): set<string> {
    set m | m in matches :: m.claimId
  }

  function ClaimIds(claims: seq<Claim>): set<string> {
    set c | c in claims :: c.claimId
  }

  /** Exactly one evidence match per claim. */
  predicate OneMatchPerClaim(g: Guarded) {
    && (forall i, j :: 0 <= i < j < |g.matches| ==> g.matches[i].claimId != g.matches[j].claimId)
    && MatchIds(g.matches) == ClaimIds(g.claims)
  }

  function RangeOf(matches: seq<Match>, id: string): (r: Range)
    requires id in MatchIds(matches)
    ensures Match(id, r) in matches
  {
    if matches[0].claimId == id then
      assert matches[0] == Match(id, matches[0].range);
      matches[0].range
    else
      assert matches == [matches[0]] + matches[1..];
      RangeOf(matches[1..], id)
  }

  lemma ClaimHasMatch(g: Guarded, c: Claim)
    requires OneMatchPerClaim(g) && c in g.claims
    ensures c.claimId in MatchIds(g.matches)
  {
    assert c.claimId in ClaimIds(g.claims);
  }

  /** The claims in order, each with its match. */
  function Pairs(g: Guarded): (r: seq<Admitted>)
    requires OneMatchPerClaim(g)
    ensures |r| == |g.claims|
    ensures forall i :: 0 <= i < |r| ==>
            r[i].claim == g.claims[i] && Match(g.claims[i].claimId, r[i].range) in g.matches
  {
    seq(|g.claims|, i requires 0 <= i < |g.claims| =>
      ClaimHasMatch(g, g.claims[i]);
      Admitted(g.claims[i], RangeOf(g.matches, g.claims[i].claimId)))
  }

  /** `apply_guarded_understanding_v2` as a function of its inputs. */
  function Apply(pack: TaskPack, l: Ledger, g: Guarded, turn: string): Result<Applied, LedgerError> {
    if !GoodTurnId(turn) then Err(BadTurnId)
    else if !BoundTo(l, pack) then Err(NotBound)
    else if !OneMatchPerClaim(g) then Err(MatchMismatch)
    else if !AllFactsKnown(pack, Pairs(g)) then Err(UnknownFact)
    else Finish(pack, l, ClaimFold(pack, turn, NoProgress(l), Pairs(g)))
  }

  /** The loop body for one claim whose fact, if it verifies one, exists. */
  method ApplyClaim(pack: TaskPack, turn: string, p: Progress, a: Admitted) returns (q: Progress)
    requires !UnknownFactClaim(pack, a.claim)
    ensures q == ClaimStep(pack, turn, p, a)
  {
    var e := EvidenceFor(turn, a);
    q := p;
    if Ignored(p.ledger, a.claim) {
      q := q.(ignored := q.ignored + [a.claim.claimId]);
      return;
    }
    q := q.(claimEvidence := q.claimEvidence[a.claim.claimId := e.id]);
    match a.claim {
      case FactClaim(_, f, _, _) =>
        if f !in p.ledger.facts {
          q := q.(ledger := q.ledger.(facts := q.ledger.facts[f := FactEntry(pack.facts[f].value, [e])]));
          q := q.(newFacts := q.newFacts + [f]);
          if pack.facts[f].milestone {
            q := q.(newMilestones := q.newMilestones + [f]);
          }
          q := q.(newFactEvidence := q.newFactEvidence + [e.id]);
        } else if e.id !in Ids(p.ledger.facts[f].evidence) {
          var entry := p.ledger.facts[f];
          q := q.(ledger := q.ledger.(facts := q.ledger.facts[f := entry.(evidence := entry.evidence + [e])]));
          q := q.(newFactEvidence := q.newFactEvidence + [e.id]);
        }
      case RelationClaim(_, r, _, verdict) =>
        if verdict == Partial {
          if r !in p.ledger.partials {
            q := q.(ledger := q.ledger.(partials := q.ledger.partials[r := [e]]));
            q := q.(newPartials := q.newPartials + [r], newPartialEvidence := q.newPartialEvidence + [e.id]);
          } else if e.id !in Ids(p.ledger.partials[r]) {
            q := q.(ledger := q.ledger.(partials := q.ledger.partials[r := q.ledger.partials[r] + [e]]));
            q := q.(newPartialEvidence := q.newPartialEvidence + [e.id]);
          }
        } else if r !in p.ledger.relations {
          q := q.(ledger := q.ledger.(relations := q.ledger.relations[r := [e]]));
          q := q.(newRelations := q.newRelations + [r], newRelationEvidence := q.newRelationEvidence + [e.id]);
        } else if e.id !in Ids(p.ledger.relations[r]) {
          q := q.(ledger := q.ledger.(relations := q.ledger.relations[r := q.ledger.relations[r] + [e]]));
          q := q.(newRelationEvidence := q.newRelationEvidence + [e.id]);
        }
      case AuxiliaryClaim(_, _, _) =>
        if e.id !in p.ledger.auxiliary {
          q := q.(ledger := q.ledger.(auxiliary := q.ledger.auxiliary[e.id := e]));
          q := q.(newAuxiliary := q.newAuxiliary + [e.id]);
        }
    }
  }

  method ApplyGuarded(pack: TaskPack, l: Ledger, g: Guarded, turn: string) returns (r: Result<Applied, LedgerError>)
    ensures r == Apply(pack, l, g, turn)
  {
    if !GoodTurnId(turn) {
      return Err(BadTurnId);
    }
    if !BoundTo(l, pack) {
      return Err(NotBound);
    }
    if !OneMatchPerClaim(g) {
      return Err(MatchMismatch);
    }
    var claims := Pairs(g);
    var p := NoProgress(l);
    for i := 0 to |claims|
      invariant AllFactsKnown(pack, claims[..i])
      invariant p == ClaimFold(pack, turn, NoProgress(l), claims[..i])
    {
      if UnknownFactClaim(pack, claims[i].claim) {
        assert claims[i] in claims;
        return Err(UnknownFact);
      }
      assert claims[..i + 1][..i] == claims[..i] && claims[..i + 1] == claims[..i] + [claims[i]];
      p := ApplyClaim(pack, turn, p, claims[i]);
    }
    assert claims[..|claims|] == claims;
    r := Finish(pack, l, p);
  }

  // ----- structured progress -----

  function StructuredEvidence(turn: string, source: SourceKind, k: Key, value: Option<Value>): Evidence {
    Structured(StructuredId(turn, source, k, value), turn, source, k)
  }

  function FactFold(pack: TaskPack, turn: string, source: SourceKind, p: Progress,
      values: seq<(string, Value)>): Progress
    requires forall u | u in values :: u.0 in pack.facts
  {
    if values == [] then p
    else
      var last := values[|values| - 1];
      assert last in values;
      AddFact(FactFold(pack, turn, source, p, values[..|values| - 1]), last.0, last.1, pack.facts[last.0].milestone,
              StructuredEvidence(turn, source, TargetKey(FactTarget, last.0), Some(last.1)))
  }

  function RelationFold(turn: string, source: SourceKind, p: Progress, relations: seq<string>): Progress {
    if relations == [] then p
    else
      var last := relations[|relations| - 1];
      AddRelation(RelationFold(turn, source, p, relations[..|relations| - 1]), last,
                  StructuredEvidence(turn, source, TargetKey(RelationTarget, last), None))
  }

  predicate HasDuplicate(s: seq<string>) {
    exists i, j :: 0 <= i < j < |s| && s[i] == s[j]
  }

  /** The first check of a structured update that fails. */
  function StructuredError(pack: TaskPack, l: Ledger, values: seq<(string, Value)>, relations: seq<string>,
      turn: string): Option<LedgerError>
  {
    if !GoodTurnId(turn) then Some(BadTurnId)
    else if HasDuplicate(relations) then Some(DuplicateRelation)
    else if !BoundTo(l, pack) then Some(NotBound)
    else if exists u | u in values :: u.0 !in pack.facts then Some(UnknownFact)
    else if exists r | r in relations :: r !in pack.relations then Some(UnknownRelation)
    else if exists u | u in values :: !pack.facts[u.0].Accepts(u.1) then Some(WrongValue)
    else None
  }

  function StructuredFold(pack: TaskPack, l: Ledger, values: seq<(string, Value)>, relations: seq<string>,
                          turn: string, source: SourceKind): Progress
    requires forall u | u in values :: u.0 in pack.facts
  {
    RelationFold(turn, source, FactFold(pack, turn, source, NoProgress(l), values), relations)
  }

  /** `apply_structured_progress_v2` as a function of its inputs; `values` are a dictionary's items in order. */
  function ApplyStructured(pack: TaskPack, l: Ledger, values: seq<(string, Value)>, relations: seq<string>,
                           turn: string, source: SourceKind): Result<Applied, LedgerError>
  {
    match StructuredError(pack, l, values, relations, turn)
    case Some(e) => Err(e)
    case None => Finish(pack, l, StructuredFold(pack, l, values, relations, turn, source))
  }

  /** The loop over the fact values. */
  method RecordFacts(pack: TaskPack, l: Ledger, values: seq<(string, Value)>, turn: string, source: SourceKind)
      returns (p: Progress)
    requires forall u | u in values :: u.0 in pack.facts
    ensures p == FactFold(pack, turn, source, NoProgress(l), values)
  {
    p := NoProgress(l);
    for i := 0 to |values|
      invariant p == FactFold(pack, turn, source, NoProgress(l), values[..i])
    {
      assert values[..i + 1][..i] == values[..i];
      var (f, value) := values[i];
      var e := StructuredEvidence(turn, source, TargetKey(FactTarget, f), Some(value));
      if f !in p.ledger.facts {
        p := p.(ledger := p.ledger.(facts := p.ledger.facts[f := FactEntry(value, [e])]),
                newFacts := p.newFacts + [f],
                newFactEvidence := p.newFactEvidence + [e.id]);
        if pack.facts[f].milestone {
          p := p.(newMilestones := p.newMilestones + [f]);
        }
      } else if e.id !in Ids(p.ledger.facts[f].evidence) {
        var entry := p.ledger.facts[f];
        p := p.(ledger := p.ledger.(facts := p.ledger.facts[f := entry.(evidence := entry.evidence + [e])]),
                newFactEvidence := p.newFactEvidence + [e.id]);
      }
    }
    assert values[..|values|] == values;
  }

  /** The loop over the relation ids. */
  method RecordRelations(start: Progress, relations: seq<string>, turn: string, source: SourceKind)
      returns (p: Progress)
    ensures p == RelationFold(turn, source, start, relations)
  {
    p := start;
    for i := 0 to |relations|
      invariant p == RelationFold(turn, source, start, relations[..i])
    {
      assert relations[..i + 1][..i] == relations[..i];
      var x := relations[i];
      var e := StructuredEvidence(turn, source, TargetKey(RelationTarget, x), None);
      if x !in p.ledger.relations {
        p := p.(ledger := p.ledger.(relations := p.ledger.relations[x := [e]]),
                newRelations := p.newRelations + [x],
                newRelationEvidence := p.newRelationEvidence + [e.id]);
      } else if e.id !in Ids(p.ledger.relations[x]) {
        p := p.(ledger := p.ledger.(relations := p.ledger.relations[x := p.ledger.relations[x] + [e]]),
                newRelationEvidence := p.newRelationEvidence + [e.id]);
      }
    }
    assert relations[..|relations|] == relations;
  }

  method ApplyStructuredProgress(pack: TaskPack, l: Ledger, values: seq<(string, Value)>, relations: seq<string>,
                                 turn: string, source: SourceKind) returns (r: Result<Applied, LedgerError>)
    ensures r == ApplyStructured(pack, l, values, relations, turn, source)
  {
    hide FactFold, RelationFold, Finish, BoundTo, GoodTurnId;
    if !GoodTurnId(turn) {
      return Err(BadTurnId);
    }
    if HasDuplicate(relations) {
      return Err(DuplicateRelation);
    }
    if !BoundTo(l, pack) {
      return Err(NotBound);
    }
    if exists u | u in values :: u.0 !in pack.facts {
      return Err(UnknownFact);
    }
    if exists x | x in relations :: x !in pack.relations {
      return Err(UnknownRelation);
    }
    for i := 0 to |values|
      invariant forall j :: 0 <= j < i ==> pack.facts[values[j].0].Accepts(values[j].1)
    {
      if !pack.facts[values[i].0].Accepts(values[i].1) {
        return Err(WrongValue);
      }
    }
    var facts := RecordFacts(pack, l, values, turn, source);
    var all := RecordRelations(facts, relations, turn, source);
    r := Finish(pack, l, all);
  }

  lemma {:induction false} FactFoldGrows(pack: TaskPack, turn: string, source: SourceKind, start: Ledger, p: Progress,
      values: seq<(string, Value)>)
    requires (forall u | u in values :: u.0 in pack.facts) && Grown(start, p)
    ensures Grown(start, FactFold(pack, turn, source, p, values))
  {
    if values != [] {
      var last := values[|values| - 1];
      assert last in values;
      FactFoldGrows(pack, turn, source, start, p, values[..|values| - 1]);
      AddFactGrows(start, FactFold(pack, turn, source, p, values[..|values| - 1]), last.0, last.1,
        pack.facts[last.0].milestone,
                   StructuredEvidence(turn, source, TargetKey(FactTarget, last.0), Some(last.1)));
    }
  }

  lemma {:induction false} RelationFoldGrows(turn: string, source: SourceKind, start: Ledger, p: Progress,
      relations: seq<string>)
    requires Grown(start, p)
    ensures Grown(start, RelationFold(turn, source, p, relations))
  {
    if relations != [] {
      var last := relations[|relations| - 1];
      RelationFoldGrows(turn, source, start, p, relations[..|relations| - 1]);
      AddRelationGrows(start, RelationFold(turn, source, p, relations[..|relations| - 1]), last,
                       StructuredEvidence(turn, source, TargetKey(RelationTarget, last), None));
    }
  }

  /** Nothing but the facts and their reports changes. */
  lemma {:induction false} FactFoldFrame(pack: TaskPack, turn: string, source: SourceKind, p: Progress,
      values: seq<(string, Value)>)
    requires forall u | u in values :: u.0 in pack.facts
    ensures var q := FactFold(pack, turn, source, p, values);
            && q.ledger == p.ledger.(facts := q.ledger.facts)
            && q.newRelations == p.newRelations && q.newPartials == p.newPartials
  {
    if values != [] {
      assert values[|values| - 1] in values;
      FactFoldFrame(pack, turn, source, p, values[..|values| - 1]);
    }
  }

  /** Exactly the listed facts are added; the ones already there keep their value, the new ones get theirs. */
  lemma {:induction false} FactFoldVerifies(pack: TaskPack, turn: string, source: SourceKind, p: Progress,
                                            values: seq<(string, Value)>, f: string)
    requires forall u | u in values :: u.0 in pack.facts
    ensures var q := FactFold(pack, turn, source, p, values).ledger.facts;
            && (f in q <==> f in p.ledger.facts || exists u | u in values :: u.0 == f)
            && (f in p.ledger.facts ==> q[f].value == p.ledger.facts[f].value)
            && (f in q && f !in p.ledger.facts ==> (f, q[f].value) in values)
  {
    if values != [] {
      var front := values[..|values| - 1];
      var last := values[|values| - 1];
      assert values == front + [last];
      assert last in values;
      FactFoldVerifies(pack, turn, source, p, front, f);
    }
  }

  lemma {:induction false} RelationFoldVerifies(turn: string, source: SourceKind, p: Progress, relations: seq<string>)
    ensures var q := RelationFold(turn, source, p, relations);
            && q.ledger == p.ledger.(relations := q.ledger.relations)
            && q.ledger.relations.Keys == p.ledger.relations.Keys + Elements(relations)
            && q.newFacts == p.newFacts && q.newPartials == p.newPartials
  {
    if relations != [] {
      var front := relations[..|relations| - 1];
      var last := relations[|relations| - 1];
      assert relations == front + [last];
      RelationFoldVerifies(turn, source, p, front);
      ElementsSnoc(front, last);
    }
  }

  // ----- guarantees of one application -----

  /** The outcome of a successful application relative to the ledger it started from. */
  ghost predicate Sound(pack: TaskPack, l: Ledger, a: Applied) {
    && Grown(l, a.progress)
    && BoundTo(a.Ledger(), pack)
    && |a.Ledger().auxiliary| <= MAX_AUXILIARY
    && a.completion == CompletionOf(pack, a.Ledger())
    && (a.completion.Complete() <==> pack.Required() <= Verified(a.Ledger()))
    && (a.becameTrue <==> pack.Required() <= Verified(a.Ledger()) && !(pack.Required() <= Verified(l)))
  }

  lemma NewsIsUnique(pack: TaskPack, l: Ledger, a: Applied)
    requires Sound(pack, l, a)
    ensures Unique(a.progress.newFacts) && Unique(a.progress.newRelations)
  {
    hide WellFormed, BoundTo, CompletionOf, Extends;
  }

  lemma FinishSound(pack: TaskPack, l: Ledger, p: Progress)
    requires Grown(l, p) && Finish(pack, l, p).Ok?
    ensures Sound(pack, l, Finish(pack, l, p).value)
  {
    CompleteIffRequiredVerified(pack, p.ledger);
    CompleteIffRequiredVerified(pack, l);
  }

  /** Applying admitted understanding only adds: keys, values and evidence already there stay, the reported ids are
      exactly the new keys, and completion is exactly coverage of the required targets. */
  lemma ApplyIsSound(pack: TaskPack, l: Ledger, g: Guarded, turn: string)
    requires WellFormed(l) && Apply(pack, l, g, turn).Ok?
    ensures Sound(pack, l, Apply(pack, l, g, turn).value)
  {
    NoProgressGrown(l);
    ClaimFoldGrows(pack, turn, l, NoProgress(l), Pairs(g));
    FinishSound(pack, l, ClaimFold(pack, turn, NoProgress(l), Pairs(g)));
  }

  lemma StructuredFoldGrows(pack: TaskPack, l: Ledger, values: seq<(string, Value)>, relations: seq<string>,
                            turn: string, source: SourceKind)
    requires WellFormed(l) && forall u | u in values :: u.0 in pack.facts
    ensures Grown(l, StructuredFold(pack, l, values, relations, turn, source))
  {
    NoProgressGrown(l);
    FactFoldGrows(pack, turn, source, l, NoProgress(l), values);
    RelationFoldGrows(turn, source, l, FactFold(pack, turn, source, NoProgress(l), values), relations);
  }

  lemma ApplyStructuredIsSound(pack: TaskPack, l: Ledger, values: seq<(string, Value)>, relations: seq<string>,
                               turn: string, source: SourceKind)
    requires WellFormed(l) && ApplyStructured(pack, l, values, relations, turn, source).Ok?
    ensures Sound(pack, l, ApplyStructured(pack, l, values, relations, turn, source).value)
  {
    StructuredFoldGrows(pack, l, values, relations, turn, source);
    FinishSound(pack, l, StructuredFold(pack, l, values, relations, turn, source));
  }

  lemma StructuredFoldBound(pack: TaskPack, l: Ledger, values: seq<(string, Value)>, relations: seq<string>,
                            turn: string, source: SourceKind)
    requires BoundTo(l, pack) && pack.ValidFactValues(values) && Elements(relations) <= pack.relations
    ensures BoundTo(StructuredFold(pack, l, values, relations, turn, source).ledger, pack)
  {
    var facts := FactFold(pack, turn, source, NoProgress(l), values);
    FactFoldFrame(pack, turn, source, NoProgress(l), values);
    RelationFoldVerifies(turn, source, facts, relations);
    var q := StructuredFold(pack, l, values, relations, turn, source).ledger;
    forall f | f in q.facts ensures f in pack.facts && pack.facts[f].Accepts(q.facts[f].value) {
      FactFoldVerifies(pack, turn, source, NoProgress(l), values, f);
    }
  }

  lemma ReviewedIsAccepted(pack: TaskPack, l: Ledger, values: seq<(string, Value)>, relations: seq<string>,
      turn: string)
    requires GoodTurnId(turn) && BoundTo(l, pack)
    requires pack.ValidFactValues(values) && Unique(relations) && Elements(relations) <= pack.relations
    ensures StructuredError(pack, l, values, relations, turn).None?
  {}

  lemma StructuredFoldVerifies(pack: TaskPack, l: Ledger, values: seq<(string, Value)>, relations: seq<string>,
                               turn: string, source: SourceKind)
    requires forall u | u in values :: u.0 in pack.facts
    ensures var p := StructuredFold(pack, l, values, relations, turn, source);
            && p.ledger.facts.Keys == l.facts.Keys + (set u | u in values :: u.0)
            && p.ledger.relations.Keys == l.relations.Keys + Elements(relations)
            && p.ledger.auxiliary == l.auxiliary && p.newPartials == []
  {
    hide FactFold, RelationFold;
    var facts := FactFold(pack, turn, source, NoProgress(l), values);
    FactFoldFrame(pack, turn, source, NoProgress(l), values);
    RelationFoldVerifies(turn, source, facts, relations);
    forall f ensures f in facts.ledger.facts.Keys <==> f in l.facts.Keys + (set u | u in values :: u.0) {
      FactFoldVerifies(pack, turn, source, NoProgress(l), values, f);
    }
  }

  /** Reviewed structured progress on a bound ledger always succeeds, and verifies exactly the named targets. */
  lemma ReviewedProgressApplies(pack: TaskPack, l: Ledger, values: seq<(string, Value)>, relations: seq<string>,
                                turn: string, source: SourceKind)
    requires GoodTurnId(turn) && BoundTo(l, pack) && |l.auxiliary| <= MAX_AUXILIARY
    requires pack.ValidFactValues(values) && Unique(relations) && Elements(relations) <= pack.relations
    ensures var r := ApplyStructured(pack, l, values, relations, turn, source);
            && r.Ok?
            && r.value.Ledger().facts.Keys == l.facts.Keys + (set u | u in values :: u.0)
            && r.value.Ledger().relations.Keys == l.relations.Keys + Elements(relations)
            && r.value.progress.newPartials == []
  {
    hide BoundTo, StructuredFold, StructuredError, CompletionOf, Complete, UniqueFactIds;
    ReviewedIsAccepted(pack, l, values, relations, turn);
    StructuredFoldVerifies(pack, l, values, relations, turn, source);
    StructuredFoldBound(pack, l, values, relations, turn, source);
  }

  // ----- exactly when claims apply -----

  /** Claims about targets of the pack's graph only. */
  ghost predicate AboutGraph(pack: TaskPack, claims: seq<Claim>) {
    forall c | c in claims :: InGraph(pack, c)
  }

  predicate InGraph(pack: TaskPack, c: Claim) {
    match c
    case FactClaim(_, f, _, _) => f in pack.facts
    case RelationClaim(_, r, _, _) => r in pack.relations
    case AuxiliaryClaim(_, _, _) => true
  }

  predicate AddsAuxiliary(c: Claim) {
    c.AuxiliaryClaim? && c.verdict in {Correct, Sufficient, Partial}
  }

  /** The auxiliary evidence these claims bring. */
  function AuxiliaryIds(turn: string, claims: seq<Admitted>): set<EvidenceId> {
    set a | a in claims && AddsAuxiliary(a.claim) :: EvidenceFor(turn, a).id
  }

  lemma StepAuxiliary(pack: TaskPack, turn: string, p: Progress, a: Admitted)
    requires !UnknownFactClaim(pack, a.claim)
    ensures ClaimStep(pack, turn, p, a).ledger.auxiliary.Keys
         == p.ledger.auxiliary.Keys + if AddsAuxiliary(a.claim) then {EvidenceFor(turn, a).id} else {}
  {
    hide AddFact, AddRelation, AddPartial;
    if !Ignored(p.ledger, a.claim) {
      var e := EvidenceFor(turn, a);
      var q := p.(claimEvidence := p.claimEvidence[a.claim.claimId := e.id]);
      match a.claim
      case FactClaim(_, f, _, _) => AddFactLedger(q, f, pack.facts[f].value, pack.facts[f].milestone, e);
      case RelationClaim(_, r, _, _) =>
        AddRelationLedger(q, r, e);
        AddPartialLedger(q, r, e);
      case AuxiliaryClaim(_, _, _) =>
    }
  }

  lemma AuxiliaryIdsSnoc(turn: string, claims: seq<Admitted>, a: Admitted)
    ensures AuxiliaryIds(turn, claims + [a])
         == AuxiliaryIds(turn, claims) + if AddsAuxiliary(a.claim) then {EvidenceFor(turn, a).id} else {}
  {
    hide EvidenceFor, AddsAuxiliary;
  }

  lemma {:induction false} FoldAuxiliary(pack: TaskPack, turn: string, p: Progress, claims: seq<Admitted>)
    requires AllFactsKnown(pack, claims)
    ensures ClaimFold(pack, turn, p, claims).ledger.auxiliary.Keys
            == p.ledger.auxiliary.Keys + AuxiliaryIds(turn, claims)
  {
    hide ClaimStep, UnknownFactClaim, AddsAuxiliary, EvidenceFor;
    if claims != [] {
      var last := |claims| - 1;
      assert claims == claims[..last] + [claims[last]];
      assert claims[last] in claims;
      FoldAuxiliary(pack, turn, p, claims[..last]);
      StepAuxiliary(pack, turn, ClaimFold(pack, turn, p, claims[..last]), claims[last]);
      AuxiliaryIdsSnoc(turn, claims[..last], claims[last]);
    } else {
      assert AuxiliaryIds(turn, claims) == {};
    }
  }

  lemma FoldBinding(pack: TaskPack, turn: string, l: Ledger, claims: seq<Admitted>)
    requires WellFormed(l) && AllFactsKnown(pack, claims)
    ensures ClaimFold(pack, turn, NoProgress(l), claims).ledger.binding == l.binding
  {
    hide ClaimFold, ExactDelta, WellFormed;
    NoProgressGrown(l);
    ClaimFoldGrows(pack, turn, l, NoProgress(l), claims);
  }

  /** Claims about the graph keep a ledger bound to its pack. */
  lemma FoldKeepsBound(pack: TaskPack, turn: string, l: Ledger, claims: seq<Admitted>)
    requires WellFormed(l) && BoundTo(l, pack) && AllFactsKnown(pack, claims)
    requires forall a | a in claims :: InGraph(pack, a.claim)
    ensures BoundTo(ClaimFold(pack, turn, NoProgress(l), claims).ledger, pack)
  {
    hide ClaimFold, WellFormed;
    FoldBinding(pack, turn, l, claims);
    var p := NoProgress(l);
    var m := ClaimFold(pack, turn, p, claims).ledger;
    forall x
      ensures x in m.facts ==> x in pack.facts && pack.facts[x].Accepts(m.facts[x].value)
      ensures x in m.relations ==> x in pack.relations
      ensures x in m.partials ==> x in pack.relations
    {
      FactVerifiedIff(pack, turn, p, claims, x);
      RelationVerifiedIff(pack, turn, p, claims, x);
      PartialRecordedIff(pack, turn, p, claims, x);
      if x in m.facts && x !in l.facts { OwnValueAccepted(pack.facts[x]); }
      assert forall i: nat | i < |claims| :: claims[i] in claims;
    }
  }

  lemma PairsAboutGraph(pack: TaskPack, g: Guarded)
    requires OneMatchPerClaim(g) && AboutGraph(pack, g.claims)
    ensures AllFactsKnown(pack, Pairs(g)) && forall a | a in Pairs(g) :: InGraph(pack, a.claim)
  {
    forall a | a in Pairs(g) ensures InGraph(pack, a.claim) {
      var i :| 0 <= i < |Pairs(g)| && Pairs(g)[i] == a;
      assert g.claims[i] in g.claims;
    }
  }

  /** Guarded claims about the pack's graph apply to a usable ledger iff the auxiliary evidence stays within its limit;
      nothing else can go wrong. */
  lemma ApplyIff(pack: TaskPack, l: Ledger, g: Guarded, turn: string)
    requires GoodTurnId(turn) && WellFormed(l) && BoundTo(l, pack) && OneMatchPerClaim(g) && AboutGraph(pack, g.claims)
    ensures var fits := |l.auxiliary.Keys + AuxiliaryIds(turn, Pairs(g))| <= MAX_AUXILIARY;
            && (Apply(pack, l, g, turn).Ok? <==> fits)
            && (!fits ==> Apply(pack, l, g, turn) == Err(TooMuchAuxiliary))
  {
    PairsAboutGraph(pack, g);
    hide WellFormed, BoundTo, OneMatchPerClaim, AllFactsKnown, Pairs, ClaimFold, CompletionOf, Complete, InGraph,
         AuxiliaryIds;
    FoldKeepsBound(pack, turn, l, Pairs(g));
    FoldAuxiliary(pack, turn, NoProgress(l), Pairs(g));
    var m := ClaimFold(pack, turn, NoProgress(l), Pairs(g)).ledger;
    assert |m.auxiliary| == |m.auxiliary.Keys|;
  }

  // ----- one call or two -----

  /** Both batches in one call. */
  function Joined(a: Guarded, b: Guarded): Guarded {
    Guarded(a.claims + b.claims, a.matches + b.matches)
  }

  lemma UniqueRange(matches: seq<Match>, m: Match)
    requires m in matches && forall i, j :: 0 <= i < j < |matches| ==> matches[i].claimId != matches[j].claimId
    ensures RangeOf(matches, m.claimId) == m.range
  {}

  lemma JoinedIds(a: Guarded, b: Guarded)
    ensures MatchIds(a.matches + b.matches) == MatchIds(a.matches) + MatchIds(b.matches)
    ensures ClaimIds(a.claims + b.claims) == ClaimIds(a.claims) + ClaimIds(b.claims)
  {}

  /** The joined batch passes the one-match check iff no claim id occurs in both. */
  lemma JoinedIsMatched(a: Guarded, b: Guarded)
    requires OneMatchPerClaim(a) && OneMatchPerClaim(b)
    ensures OneMatchPerClaim(Joined(a, b)) <==> ClaimIds(a.claims) !! ClaimIds(b.claims)
  {
    JoinedIds(a, b);
    var both := a.matches + b.matches;
    if ClaimIds(a.claims) !! ClaimIds(b.claims) {
      forall i, j | 0 <= i < j < |both| ensures both[i].claimId != both[j].claimId {
        if i < |a.matches| <= j {
          assert both[i].claimId in MatchIds(a.matches) && both[j] == b.matches[j - |a.matches|];
          assert both[j].claimId in MatchIds(b.matches);
        }
      }
    } else {
      var id :| id in MatchIds(a.matches) && id in MatchIds(b.matches);
      var i :| 0 <= i < |a.matches| && a.matches[i].claimId == id;
      var j :| 0 <= j < |b.matches| && b.matches[j].claimId == id;
      assert both[i].claimId == both[|a.matches| + j].claimId;
    }
  }

  lemma JoinedPairs(a: Guarded, b: Guarded)
    requires OneMatchPerClaim(a) && OneMatchPerClaim(b) && OneMatchPerClaim(Joined(a, b))
    ensures Pairs(Joined(a, b)) == Pairs(a) + Pairs(b)
  {
    var g := Joined(a, b);
    forall i | 0 <= i < |g.claims| ensures Pairs(g)[i] == (Pairs(a) + Pairs(b))[i] {
      var (part, k) := if i < |a.claims| then (a, i) else (b, i - |a.claims|);
      var m := Match(part.claims[k].claimId, Pairs(part)[k].range);
      assert m in part.matches && m in g.matches;
      UniqueRange(g.matches, m);
      UniqueRange(g.matches, Match(g.claims[i].claimId, Pairs(g)[i].range));
    }
  }

  /** What a call checks of the ledger it would store. */
  predicate Storable(pack: TaskPack, l: Ledger) { |l.auxiliary| <= MAX_AUXILIARY && BoundTo(l, pack) }

  lemma StorableBefore(pack: TaskPack, m: Ledger, l: Ledger)
    requires Extends(m, l) && Storable(pack, m)
    ensures Storable(pack, l)
  {
    SubsetCardinality(l.auxiliary.Keys, m.auxiliary.Keys);
    assert |l.auxiliary| == |l.auxiliary.Keys| && |m.auxiliary| == |m.auxiliary.Keys|;
  }

  lemma ApplyUnfolds(pack: TaskPack, l: Ledger, g: Guarded, turn: string)
    requires OneMatchPerClaim(g)
    ensures var r := Apply(pack, l, g, turn);
            && (r.Ok? <==> GoodTurnId(turn) && BoundTo(l, pack) && AllFactsKnown(pack, Pairs(g))
                           && Storable(pack, ClaimFold(pack, turn, NoProgress(l), Pairs(g)).ledger))
            && (r.Ok? ==> var m := ClaimFold(pack, turn, NoProgress(l), Pairs(g)).ledger;
                          r.value.Ledger() == m && r.value.completion == CompletionOf(pack, m))
  {
    hide OneMatchPerClaim, BoundTo, Pairs, AllFactsKnown, ClaimFold, CompletionOf, Complete;
  }

  /** The fold over both batches is the second batch on what the first left. */
  lemma FoldInTwoSteps(pack: TaskPack, turn: string, l: Ledger, a: seq<Admitted>, b: seq<Admitted>)
    requires WellFormed(l) && AllFactsKnown(pack, a) && AllFactsKnown(pack, b)
    ensures AllFactsKnown(pack, a + b)
    ensures var first := ClaimFold(pack, turn, NoProgress(l), a).ledger;
            var both := ClaimFold(pack, turn, NoProgress(l), a + b).ledger;
            && both == ClaimFold(pack, turn, NoProgress(first), b).ledger
            && WellFormed(first) && Extends(both, first)
  {
    ClaimFoldAppend(pack, turn, NoProgress(l), a, b);
    var p := ClaimFold(pack, turn, NoProgress(l), a);
    FoldLedgerOnly(pack, turn, p, NoProgress(p.ledger), b);
    FoldWellFormed(pack, turn, NoProgress(l), a);
    hide ClaimFold, AllFactsKnown, WellFormed, Extends;
    NoProgressGrown(p.ledger);
    ClaimFoldGrows(pack, turn, p.ledger, NoProgress(p.ledger), b);
  }

  lemma {:induction false} FoldLedgerOnly(pack: TaskPack, turn: string, p: Progress, q: Progress, claims: seq<Admitted>)
    requires AllFactsKnown(pack, claims) && p.ledger == q.ledger
    ensures ClaimFold(pack, turn, p, claims).ledger == ClaimFold(pack, turn, q, claims).ledger
  {
    if claims != [] {
      var last := |claims| - 1;
      assert claims[last] in claims;
      FoldLedgerOnly(pack, turn, p, q, claims[..last]);
      StepLedgerOnly(pack, turn, ClaimFold(pack, turn, p, claims[..last]), ClaimFold(pack, turn, q, claims[..last]),
        claims[last]);
    }
  }

  lemma KnownInBoth(pack: TaskPack, a: seq<Admitted>, b: seq<Admitted>)
    ensures AllFactsKnown(pack, a + b) <==> AllFactsKnown(pack, a) && AllFactsKnown(pack, b)
  {
    hide UnknownFactClaim;
    assert forall x :: x in a + b <==> x in a || x in b;
  }

  /** One call with two batches succeeds iff no claim id occurs in both and the two calls in a row succeed, and then it
      leaves the same ledger and the same completion. */
  lemma ApplyInTwoSteps(pack: TaskPack, turn: string, l: Ledger, a: Guarded, b: Guarded)
    requires WellFormed(l) && OneMatchPerClaim(a) && OneMatchPerClaim(b)
    ensures var first := Apply(pack, l, a, turn);
            var one := Apply(pack, l, Joined(a, b), turn);
            && (one.Ok? <==>
                 ClaimIds(a.claims) !! ClaimIds(b.claims) && first.Ok?
                   && Apply(pack, first.value.Ledger(), b, turn).Ok?)
            && (one.Ok? ==> var second := Apply(pack, first.value.Ledger(), b, turn).value;
                            one.value.Ledger() == second.Ledger() && one.value.completion == second.completion)
  {
    JoinedIsMatched(a, b);
    if ClaimIds(a.claims) !! ClaimIds(b.claims) {
      JoinedPairs(a, b);
      hide *;
      KnownInBoth(pack, Pairs(a), Pairs(b));
      ApplyUnfolds(pack, l, a, turn);
      ApplyUnfolds(pack, l, Joined(a, b), turn);
      if AllFactsKnown(pack, Pairs(a)) && AllFactsKnown(pack, Pairs(b)) {
        FoldInTwoSteps(pack, turn, l, Pairs(a), Pairs(b));
        var m := ClaimFold(pack, turn, NoProgress(l), Pairs(a)).ledger;
        var n := ClaimFold(pack, turn, NoProgress(l), Pairs(a) + Pairs(b)).ledger;
        if Storable(pack, n) { StorableBefore(pack, n, m); }
        StorableIsBound(pack, m);
        ApplyUnfolds(pack, m, b, turn);
      } else if Apply(pack, l, a, turn).Ok? {
        ApplyUnfolds(pack, Apply(pack, l, a, turn).value.Ledger(), b, turn);
      }
    } else {
      hide *;
      MismatchFails(pack, l, Joined(a, b), turn);
    }
  }

  lemma StorableIsBound(pack: TaskPack, l: Ledger)
    ensures Storable(pack, l) ==> BoundTo(l, pack)
  {}

  lemma MismatchFails(pack: TaskPack, l: Ledger, g: Guarded, turn: string)
    requires !OneMatchPerClaim(g)
    ensures Apply(pack, l, g, turn).Err?
  {
    hide OneMatchPerClaim;
  }

  // ----- evidence of newly verified relations -----

  /** A relation verified since `start` rests only on evidence the turn reports as new. */
  ghost predicate Evidenced(start: Ledger, p: Progress) {
    forall r, e :: r in p.ledger.relations && r !in start.relations && e in p.ledger.relations[r] ==>
      e.id in p.newRelationEvidence
  }

  lemma AddRelationEvidenced(start: Ledger, p: Progress, r: string, e: Evidence)
    requires Evidenced(start, p)
    ensures Evidenced(start, AddRelation(p, r, e))
  {}

  lemma {:induction false} ClaimFoldEvidenced(pack: TaskPack, turn: string, start: Ledger, p: Progress,
      claims: seq<Admitted>)
    requires AllFactsKnown(pack, claims) && Evidenced(start, p)
    ensures Evidenced(start, ClaimFold(pack, turn, p, claims))
  {
    if claims != [] {
      var a := claims[|claims| - 1];
      assert a in claims;
      var front := ClaimFold(pack, turn, p, claims[..|claims| - 1]);
      ClaimFoldEvidenced(pack, turn, start, p, claims[..|claims| - 1]);
      if a.claim.RelationClaim? {
        var e := EvidenceFor(turn, a);
        AddRelationEvidenced(start, front.(claimEvidence := front.claimEvidence[a.claim.claimId := e.id]),
          a.claim.relationId, e);
      }
    }
  }

  lemma {:induction false} FactFoldEvidenced(pack: TaskPack, turn: string, source: SourceKind, start: Ledger,
      p: Progress,
                                             values: seq<(string, Value)>)
    requires (forall u | u in values :: u.0 in pack.facts) && Evidenced(start, p)
    ensures Evidenced(start, FactFold(pack, turn, source, p, values))
  {
    if values != [] {
      FactFoldEvidenced(pack, turn, source, start, p, values[..|values| - 1]);
    }
  }

  lemma {:induction false} RelationFoldEvidenced(turn: string, source: SourceKind, start: Ledger, p: Progress,
      relations: seq<string>)
    requires Evidenced(start, p)
    ensures Evidenced(start, RelationFold(turn, source, p, relations))
  {
    if relations != [] {
      var last := relations[|relations| - 1];
      RelationFoldEvidenced(turn, source, start, p, relations[..|relations| - 1]);
      AddRelationEvidenced(start, RelationFold(turn, source, p, relations[..|relations| - 1]), last,
                           StructuredEvidence(turn, source, TargetKey(RelationTarget, last), None));
    }
  }

  /** Both operations report every piece of evidence behind the relations they newly verify. */
  lemma ApplyIsEvidenced(pack: TaskPack, l: Ledger, g: Guarded, turn: string)
    requires Apply(pack, l, g, turn).Ok?
    ensures Evidenced(l, Apply(pack, l, g, turn).value.progress)
  {
    ClaimFoldEvidenced(pack, turn, l, NoProgress(l), Pairs(g));
  }

  lemma ApplyStructuredIsEvidenced(pack: TaskPack, l: Ledger, values: seq<(string, Value)>, relations: seq<string>,
                                   turn: string, source: SourceKind)
    requires ApplyStructured(pack, l, values, relations, turn, source).Ok?
    ensures Evidenced(l, ApplyStructured(pack, l, values, relations, turn, source).value.progress)
  {
    FactFoldEvidenced(pack, turn, source, l, NoProgress(l), values);
    RelationFoldEvidenced(turn, source, l, FactFold(pack, turn, source, NoProgress(l), values), relations);
  }

  // ----- histories -----

  /** Ledgers of one conversation in order, each grown from the one before. */
  ghost predicate History(h: seq<Ledger>) {
    forall i :: 0 < i < |h| ==> Extends(h[i], h[i - 1])
  }

  lemma {:induction false} HistoryExtends(h: seq<Ledger>, i: nat, j: nat)
    requires History(h) && i <= j < |h|
    ensures Extends(h[j], h[i])
    decreases j - i
  {
    if i < j {
      HistoryExtends(h, i, j - 1);
      ExtendsTransitive(h[j], h[j - 1], h[i]);
    }
  }

  ghost predicate Fires(pack: TaskPack, h: seq<Ledger>, i: nat)
    requires 0 < i < |h|
  {
    Complete(pack, h[i]) && !Complete(pack, h[i - 1])
  }

  lemma CompletePersists(pack: TaskPack, m: Ledger, l: Ledger)
    requires Extends(m, l) && Complete(pack, l)
    ensures Complete(pack, m)
  {
    ExtendsVerified(m, l);
    CompleteIffRequiredVerified(pack, l);
    CompleteIffRequiredVerified(pack, m);
  }

  /** `completion_became_true` is reported at most once in the life of a ledger. */
  lemma CompletionFiresOnce(pack: TaskPack, h: seq<Ledger>, i: nat, j: nat)
    requires History(h) && 0 < i < j < |h|
    requires Fires(pack, h, i)
    ensures !Fires(pack, h, j)
  {
    HistoryExtends(h, i, j - 1);
    CompletePersists(pack, h[j - 1], h[i]);
  }
}
