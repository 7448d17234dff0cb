/** The evidence guard: which claims are literally in the child's utterance, strictly or claim by claim.
    Unicode normalisation (`nfc`) and the bare-number pattern (`bare`) are parameters. */
module EvidenceGuard {
  import opened Common
  import opened Content
  import opened Ledgers
  import opened LedgerOperations
  import opened Ladders

  datatype Rules = Rules(nfc: string -> string, bare: string -> bool)

  datatype Request = Request(
    utterance: string,
    factIds: set<string>,
    relationIds: set<string>,
    openAuxiliary: bool,
    visible: set<string>)

  datatype ViolationCode = UnknownFactId | UnknownRelationId | AuxiliaryDisabled | NotLiteral | BareResult

  datatype Violation = Violation(claimId: string, code: ViolationCode)

  // ----- literal evidence -----

  predicate At(text: string, part: string, i: nat) {
    i + |part| <= |text| && text[i..i + |part|] == part
  }

  /** Python's `text.find(part)` from position `i` on. */
  function FindFrom(text: string, part: string, i: nat): (r: Option<nat>)
    requires i <= |text| + 1
    ensures r.Some? ==> i <= r.value && At(text, part, r.value) && forall j: nat :: i <= j < r.value ==>
            !At(text, part, j)
    ensures r.None? ==> forall j: nat :: i <= j ==> !At(text, part, j)
    decreases |text| + 1 - i
  {
    if i + |part| > |text| then None
    else if At(text, part, i) then Some(i)
    else FindFrom(text, part, i + 1)
  }

  predicate Contains(text: string, part: string) {
    FindFrom(text, part, 0).Some?
  }

  /** `[i, j)` is a source slice equal to the span up to normalisation. */
  predicate SliceMatches(nfc: string -> string, text: string, span: string, i: nat, j: nat) {
    i < j <= |text| && nfc(text[i..j]) == nfc(span)
  }

  /** The literal match of a span: its first exact occurrence, else the first normalised slice by start, then end. */
  ghost predicate IsLiteralMatch(nfc: string -> string, text: string, span: string, r: Option<Range>) {
    match FindFrom(text, span, 0)
    case Some(i) => r == Some(Range(i, i + |span|, Exact))
    case None =>
      if !Contains(nfc(text), nfc(span)) then r == None
      else
        match r
        case None => forall i: nat, j: nat :: !SliceMatches(nfc, text, span, i, j)
        case Some(m) =>
          && m.kind == UnicodeNfc
          && SliceMatches(nfc, text, span, m.start, m.end)
          && (forall i: nat, j: nat :: i < m.start || (i == m.start && j < m.end) ==>
               !SliceMatches(nfc, text, span, i, j))
  }

  /** The match is determined by the utterance and the span. */
  lemma LiteralMatchUnique(nfc: string -> string, text: string, span: string, r: Option<Range>, q: Option<Range>)
    requires IsLiteralMatch(nfc, text, span, r) && IsLiteralMatch(nfc, text, span, q)
    ensures r == q
  {}

  /** Every match is a range of the utterance whose text equals the span up to normalisation. */
  lemma LiteralMatchIsLiteral(nfc: string -> string, text: string, span: string, r: Option<Range>)
    requires IsLiteralMatch(nfc, text, span, r) && r.Some? && span != []
    ensures r.value.start < r.value.end <= |text|
    ensures nfc(text[r.value.start..r.value.end]) == nfc(span)
    ensures r.value.kind == Exact <==> text[r.value.start..r.value.end] == span
  {
    var m := r.value;
    assert text[m.start..m.end] == span ==> At(text, span, m.start);
  }

  // ----- the value of the scan, for use in specifications -----

  function ScanEnds(nfc: string -> string, text: string, span: string, i: nat, j: nat): (r: Option<Range>)
    requires i < j <= |text| + 1
    ensures r.Some? ==>
            r.value.start == i && r.value.kind == UnicodeNfc && j <= r.value.end
              && SliceMatches(nfc, text, span, i, r.value.end)
    ensures r.Some? ==> forall b: nat :: j <= b < r.value.end ==> !SliceMatches(nfc, text, span, i, b)
    ensures r.None? ==> forall b: nat :: j <= b ==> !SliceMatches(nfc, text, span, i, b)
    decreases |text| + 1 - j
  {
    if j > |text| then None
    else if nfc(text[i..j]) == nfc(span) then Some(Range(i, j, UnicodeNfc))
    else ScanEnds(nfc, text, span, i, j + 1)
  }

  function ScanStarts(nfc: string -> string, text: string, span: string, i: nat): (r: Option<Range>)
    requires i <= |text|
    ensures r.Some? ==>
            i <= r.value.start && r.value.kind == UnicodeNfc
              && SliceMatches(nfc, text, span, r.value.start, r.value.end)
    ensures r.Some? ==> forall a: nat, b: nat :: i <= a < r.value.start || (a == r.value.start && b < r.value.end) ==>
            !SliceMatches(nfc, text, span, a, b)
    ensures r.None? ==> forall a: nat, b: nat :: i <= a ==> !SliceMatches(nfc, text, span, a, b)
    decreases |text| - i
  {
    if i == |text| then None
    else
      match ScanEnds(nfc, text, span, i, i + 1)
      case Some(r) => Some(r)
      case None => ScanStarts(nfc, text, span, i + 1)
  }

  function LiteralMatch(nfc: string -> string, text: string, span: string): (r: Option<Range>)
    ensures IsLiteralMatch(nfc, text, span, r)
  {
    match FindFrom(text, span, 0)
    case Some(i) => Some(Range(i, i + |span|, Exact))
    case None => if Contains(nfc(text), nfc(span)) then ScanStarts(nfc, text, span, 0) else None
  }

  /** The nested index loops of `_literal_evidence_match`. */
  method LiteralEvidenceMatch(nfc: string -> string, text: string, span: string) returns (r: Option<Range>)
    ensures r == LiteralMatch(nfc, text, span)
  {
    var exact := FindFrom(text, span, 0);
    if exact.Some? {
      return Some(Range(exact.value, exact.value + |span|, Exact));
    }
    ghost var expected := LiteralMatch(nfc, text, span);
    if !Contains(nfc(text), nfc(span)) {
      return None;
    }
    for i := 0 to |text|
      invariant forall a: nat, b: nat :: a < i ==> !SliceMatches(nfc, text, span, a, b)
    {
      for j := i + 1 to |text| + 1
        invariant forall b: nat :: b < j ==> !SliceMatches(nfc, text, span, i, b)
      {
        if nfc(text[i..j]) == nfc(span) {
          r := Some(Range(i, j, UnicodeNfc));
          LiteralMatchUnique(nfc, text, span, r, expected);
          return;
        }
      }
    }
    r := None;
    LiteralMatchUnique(nfc, text, span, r, expected);
  }

  /** No match is reported iff the span does not occur exactly and either its normal form does not occur in that of the
      utterance, which is checked first, or no slice has it. */
  lemma NoLiteralMatchIff(nfc: string -> string, text: string, span: string)
    ensures LiteralMatch(nfc, text, span) == None <==>
            && (forall i: nat :: !At(text, span, i))
            && ((forall i: nat :: !At(nfc(text), nfc(span), i)) || forall i: nat, j: nat ::
                 !SliceMatches(nfc, text, span, i, j))
  {
    assert forall i: nat :: At(text, span, i) ==> FindFrom(text, span, 0).Some?;
    assert forall i: nat :: At(nfc(text), nfc(span), i) ==> Contains(nfc(text), nfc(span));
  }

  /** Normalisation of the letter e with the accents that matter below, as Unicode defines it. */
  function Accents(s: string): string {
    if s == "e\U{0302}\U{0301}" then "\U{1ebf}" else if s == "e\U{0302}" then "\U{00ea}" else s
  }

  /** The check on the whole utterance loses evidence: it normalises to one letter with two accents, so the letter with
      one accent is not found in it, although the first two characters of the utterance are that letter. */
  lemma WholeCheckLosesEvidence()
    ensures var (text, span) := ("e\U{0302}\U{0301}", "\U{00ea}");
            SliceMatches(Accents, text, span, 0, 2) && LiteralMatch(Accents, text, span) == None
  {
    var text, span := "e\U{0302}\U{0301}", "\U{00ea}";
    assert text[0..2] == "e\U{0302}";
    assert Accents(text) == "\U{1ebf}" && Accents(span) == span;
    assert text[0] != span[0] && text[1] != span[0] && text[2] != span[0] && Accents(text)[0] != span[0];
    forall i: nat ensures !At(text, span, i) && !At(Accents(text), span, i) {
      if i + 1 <= |text| { assert text[i..i + 1][0] == text[i]; }
      if i + 1 <= |Accents(text)| { assert Accents(text)[i..i + 1][0] == Accents(text)[i]; }
    }
    NoLiteralMatchIff(Accents, text, span);
  }

  // ----- one claim -----

  function MembershipViolations(req: Request, c: Claim): seq<Violation> {
    match c
    case FactClaim(id, f, _, _) => if f !in req.factIds then [Violation(id, UnknownFactId)] else []
    case RelationClaim(id, r, _, _) => if r !in req.relationIds then [Violation(id, UnknownRelationId)] else []
    case AuxiliaryClaim(id, _, _) => if !req.openAuxiliary then [Violation(id, AuxiliaryDisabled)] else []
  }

  function LiteralViolations(rules: Rules, req: Request, c: Claim): seq<Violation> {
    if LiteralMatch(rules.nfc, req.utterance, c.span).None? then [Violation(c.claimId, NotLiteral)]
    else if c.RelationClaim? && c.verdict in {Correct, Sufficient} && rules.bare(c.span)
      then [Violation(c.claimId, BareResult)]
    else []
  }

  function ViolationsOf(rules: Rules, req: Request, c: Claim): seq<Violation> {
    MembershipViolations(req, c) + LiteralViolations(rules, req, c)
  }

  predicate Admissible(rules: Rules, req: Request, c: Claim) {
    ViolationsOf(rules, req, c) == []
  }

  lemma AdmissibleHasMatch(rules: Rules, req: Request, c: Claim)
    requires Admissible(rules, req, c)
    ensures LiteralMatch(rules.nfc, req.utterance, c.span).Some?
  {}

  // ----- the whole response -----

  function AllViolations(rules: Rules, req: Request, claims: seq<Claim>): seq<Violation> {
    if claims == [] then []
    else AllViolations(rules, req, claims[..|claims| - 1]) + ViolationsOf(rules, req, claims[|claims| - 1])
  }

  function AdmissibleClaims(rules: Rules, req: Request, claims: seq<Claim>): seq<Claim> {
    if claims == [] then []
    else
      var front := AdmissibleClaims(rules, req, claims[..|claims| - 1]);
      var last := claims[|claims| - 1];
      if Admissible(rules, req, last) then front + [last] else front
  }

  function MatchesFor(rules: Rules, req: Request, claims: seq<Claim>): seq<Match>
    requires forall c | c in claims :: Admissible(rules, req, c)
  {
    seq(|claims|, i requires 0 <= i < |claims| =>
      assert claims[i] in claims;
      AdmissibleHasMatch(rules, req, claims[i]);
      Match(claims[i].claimId, LiteralMatch(rules.nfc, req.utterance, claims[i].span).value))
  }

  lemma {:induction false} AdmissibleClaimsAre(rules: Rules, req: Request, claims: seq<Claim>)
    ensures forall c :: c in AdmissibleClaims(rules, req, claims) <==> c in claims && Admissible(rules, req, c)
  {
    if claims != [] {
      var last := |claims| - 1;
      AdmissibleClaimsAre(rules, req, claims[..last]);
      assert claims == claims[..last] + [claims[last]];
    }
  }

  lemma {:induction false} NoViolationsIff(rules: Rules, req: Request, claims: seq<Claim>)
    ensures AllViolations(rules, req, claims) == [] <==> forall c | c in claims :: Admissible(rules, req, c)
    ensures AllViolations(rules, req, claims) == [] ==> AdmissibleClaims(rules, req, claims) == claims
  {
    hide ViolationsOf;
    if claims != [] {
      var last := |claims| - 1;
      NoViolationsIff(rules, req, claims[..last]);
      assert claims == claims[..last] + [claims[last]];
      assert forall c :: c in claims <==> c in claims[..last] || c == claims[last];
      assert AllViolations(rules, req, claims) == [] <==>
             AllViolations(rules, req, claims[..last]) == [] && Admissible(rules, req, claims[last]);
    }
  }

  lemma OneMoreClaim(rules: Rules, req: Request, front: seq<Claim>, c: Claim)
    ensures AllViolations(rules, req, front + [c]) == AllViolations(rules, req, front) + ViolationsOf(rules, req, c)
    ensures AdmissibleClaims(rules, req, front + [c])
         == AdmissibleClaims(rules, req, front) + if Admissible(rules, req, c) then [c] else []
  {}

  lemma OneMoreMatch(rules: Rules, req: Request, kept: seq<Claim>, c: Claim)
    requires (forall x | x in kept :: Admissible(rules, req, x)) && Admissible(rules, req, c)
    ensures LiteralMatch(rules.nfc, req.utterance, c.span).Some?
    ensures forall x | x in kept + [c] :: Admissible(rules, req, x)
    ensures MatchesFor(rules, req, kept + [c])
         == MatchesFor(rules, req, kept) + [Match(c.claimId, LiteralMatch(rules.nfc, req.utterance, c.span).value)]
  {}

  function AdmittedUi(rules: Rules, req: Request, r: Response): Option<UiReference> {
    match r.ui
    case None => None
    case Some(ui) =>
      if ui.elementId !in req.visible || LiteralMatch(rules.nfc, req.utterance, ui.span).None? then None else Some(ui)
  }

  datatype GuardedResponse = GuardedResponse(response: Response, matches: seq<Match>)

  datatype AdmittedResponse = AdmittedResponse(guarded: GuardedResponse, quarantined: seq<Violation>)

  lemma EmptyResponse(rules: Rules, req: Request)
    ensures AllViolations(rules, req, []) == [] && AdmissibleClaims(rules, req, []) == []
    ensures MatchesFor(rules, req, []) == []
  {}

  /** `guard_understanding_response_v2`: all or nothing. */
  method Guard(rules: Rules, req: Request, r: Response) returns (g: Result<GuardedResponse, seq<Violation>>)
    ensures g.Err? <==> AllViolations(rules, req, r.claims) != []
    ensures g.Err? ==> g.error == AllViolations(rules, req, r.claims)
    ensures g.Ok? ==> (forall c | c in r.claims :: Admissible(rules, req, c))
                      && g.value == GuardedResponse(r.(ui := AdmittedUi(rules, req, r)),
                           MatchesFor(rules, req, r.claims))
  {
    hide IsLiteralMatch, LiteralMatch, MembershipViolations, AllViolations, MatchesFor, AdmittedUi;
    EmptyResponse(rules, req);
    var violations: seq<Violation> := [];
    var matches: seq<Match> := [];
    assert r.claims[..0] == [];
    for i := 0 to |r.claims|
      invariant violations == AllViolations(rules, req, r.claims[..i])
      invariant violations == [] ==>
                (forall c | c in r.claims[..i] :: Admissible(rules, req, c))
                  && matches == MatchesFor(rules, req, r.claims[..i])
    {
      var c := r.claims[i];
      ghost var before := violations;
      assert r.claims[..i + 1] == r.claims[..i] + [c];
      OneMoreClaim(rules, req, r.claims[..i], c);
      if before == [] && Admissible(rules, req, c) {
        OneMoreMatch(rules, req, r.claims[..i], c);
      }
      violations := violations + MembershipViolations(req, c);
      var found := LiteralEvidenceMatch(rules.nfc, req.utterance, c.span);
      if found.None? {
        violations := violations + [Violation(c.claimId, NotLiteral)];
      } else if c.RelationClaim? && (c.verdict == Correct || c.verdict == Sufficient) && rules.bare(c.span) {
        violations := violations + [Violation(c.claimId, BareResult)];
      } else {
        matches := matches + [Match(c.claimId, found.value)];
      }
      assert violations == before + ViolationsOf(rules, req, c);
    }
    assert r.claims[..|r.claims|] == r.claims;
    NoViolationsIff(rules, req, r.claims);
    if violations != [] {
      return Err(violations);
    }
    return Ok(GuardedResponse(r.(ui := AdmittedUi(rules, req, r)), matches));
  }

  /** `admit_understanding_response_v2` as a function. */
  function Admit(rules: Rules, req: Request, r: Response): AdmittedResponse {
    var kept := AdmissibleClaims(rules, req, r.claims);
    AdmissibleClaimsAre(rules, req, r.claims);
    AdmittedResponse(
      GuardedResponse(r.(claims := kept, containsEvidence := kept != [], ui := AdmittedUi(rules, req, r)),
        MatchesFor(rules, req, kept)),
      AllViolations(rules, req, r.claims))
  }

  method AdmitResponse(rules: Rules, req: Request, r: Response) returns (a: AdmittedResponse)
    ensures a == Admit(rules, req, r)
  {
    hide IsLiteralMatch, LiteralMatch, MembershipViolations, AllViolations, AdmissibleClaims, MatchesFor, AdmittedUi;
    EmptyResponse(rules, req);
    var accepted: seq<Claim> := [];
    var matches: seq<Match> := [];
    var quarantined: seq<Violation> := [];
    assert r.claims[..0] == [];
    for i := 0 to |r.claims|
      invariant quarantined == AllViolations(rules, req, r.claims[..i])
      invariant accepted == AdmissibleClaims(rules, req, r.claims[..i])
      invariant (forall c | c in accepted :: Admissible(rules, req, c)) && matches == MatchesFor(rules, req, accepted)
    {
      var c := r.claims[i];
      assert r.claims[..i + 1] == r.claims[..i] + [c];
      OneMoreClaim(rules, req, r.claims[..i], c);
      if Admissible(rules, req, c) {
        OneMoreMatch(rules, req, accepted, c);
      }
      var found := LiteralEvidenceMatch(rules.nfc, req.utterance, c.span);
      var violations := MembershipViolations(req, c);
      if found.None? {
        violations := violations + [Violation(c.claimId, NotLiteral)];
      } else if c.RelationClaim? && (c.verdict == Correct || c.verdict == Sufficient) && rules.bare(c.span) {
        violations := violations + [Violation(c.claimId, BareResult)];
      }
      assert violations == ViolationsOf(rules, req, c);
      quarantined := quarantined + violations;
      if violations == [] {
        accepted := accepted + [c];
        matches := matches + [Match(c.claimId, found.value)];
      }
    }
    assert r.claims[..|r.claims|] == r.claims;
    a := AdmittedResponse(
      GuardedResponse(r.(claims := accepted, containsEvidence := accepted != [], ui := AdmittedUi(rules, req, r)),
        matches),
      quarantined);
  }

  /** The strict guard and claim-level admission agree: one rejects iff the other quarantines, with the same list, and
      otherwise both keep every claim with the same matches. */
  method GuardAndAdmissionAgree(rules: Rules, req: Request, r: Response)
    returns (g: Result<GuardedResponse, seq<Violation>>, a: AdmittedResponse)
    ensures g.Err? <==> a.quarantined != []
    ensures g.Err? ==> g.error == a.quarantined
    ensures g.Ok? ==>
              && a.guarded.response.claims == g.value.response.claims == r.claims
              && a.guarded.matches == g.value.matches
              && a.guarded.response.ui == g.value.response.ui
  {
    g := Guard(rules, req, r);
    a := AdmitResponse(rules, req, r);
    NoViolationsIff(rules, req, r.claims);
  }

  ghost predicate UniqueClaimIds(claims: seq<Claim>) {
    forall i, j :: 0 <= i < j < |claims| ==> claims[i].claimId != claims[j].claimId
  }

  lemma {:induction false} AdmissibleClaimsUnique(rules: Rules, req: Request, claims: seq<Claim>)
    requires UniqueClaimIds(claims)
    ensures UniqueClaimIds(AdmissibleClaims(rules, req, claims))
  {
    if claims != [] {
      var last := |claims| - 1;
      AdmissibleClaimsUnique(rules, req, claims[..last]);
      var front := AdmissibleClaims(rules, req, claims[..last]);
      AdmissibleClaimsAre(rules, req, claims[..last]);
      forall i | 0 <= i < |front| ensures front[i].claimId != claims[last].claimId {
        assert front[i] in claims[..last];
      }
    }
  }

  /** Admission keeps exactly one match per kept claim, and only claims about the graph. */
  lemma AdmissionIsGuarded(rules: Rules, req: Request, r: Response)
    requires UniqueClaimIds(r.claims)
    ensures var g := Admit(rules, req, r).guarded;
            && OneMatchPerClaim(Guarded(g.response.claims, g.matches))
            && UniqueClaimIds(g.response.claims)
            && forall c | c in g.response.claims :: Admissible(rules, req, c)
  {
    AdmissibleClaimsUnique(rules, req, r.claims);
    AdmissibleClaimsAre(rules, req, r.claims);
    var kept := AdmissibleClaims(rules, req, r.claims);
    MatchIdsFollowClaims(rules, req, kept);
  }

  lemma MatchIdsFollowClaims(rules: Rules, req: Request, kept: seq<Claim>)
    requires (forall c | c in kept :: Admissible(rules, req, c)) && UniqueClaimIds(kept)
    ensures OneMatchPerClaim(Guarded(kept, MatchesFor(rules, req, kept)))
  {
    var matches := MatchesFor(rules, req, kept);
    forall id ensures id in MatchIds(matches) <==> id in ClaimIds(kept) {
      if id in ClaimIds(kept) {
        var i :| 0 <= i < |kept| && kept[i].claimId == id;
        assert matches[i].claimId == id && matches[i] in matches;
      }
    }
  }
}
