/** One turn's semantics and the support ladder: expression L4 > L3 > L2 > L0 and hint H0 < H1 < H2 < H3. */
module Ladders {
  import opened Common
  import opened Content
  import opened Ledgers
  import opened LedgerOperations

  datatype UtteranceClass =
    | LearningResponse | TaskQuestionClass | HelpRequest | NonLearningSafe | SystemManipulation | SafetyRisk

  datatype Move = NoMove | TaskQuestion | MetaQuestion | RequestMormiAnswer | Refusal | SafePlay

  datatype SupportNeed = NoSupport | ExpressionNeed | ConceptNeed | BothNeeds | GeneralHelp

  datatype UiInteraction =
    | AsksWhy | AsksWhatNext | ExpressesConfusion | Challenges | OtherInteraction | UncertainInteraction

  datatype UiReference = UiReference(elementId: string, interaction: UiInteraction, span: string)

  /** The understanding model's answer, as far as it decides state. */
  datatype Response = Response(
    utterance: UtteranceClass,
    move: Move,
    support: SupportNeed,
    ui: Option<UiReference>,
    containsEvidence: bool,
    claims: seq<Claim>)

  datatype Route = MainRoute | BridgeRoute | SafetyRoute | StableRoute | FallbackRoute

  datatype Source =
    | SonnetLow | DeterministicFallback | StructuredChoice | StructuredJoint | ExplicitNoResponse | SilenceTimeout
    | AsrEmpty

  datatype Semantics = Semantics(
    response: Response,
    applied: Applied,
    route: Route,
    source: Source,
    structuredCorrect: Option<bool>,
    initialHelp: bool)
  {
    predicate Progressed() { applied.NewCanonical() || applied.NewPartial() }

    /** The child asks the product for a stronger scaffold. */
    predicate AsksForSupport() {
      || response.move in {TaskQuestion, RequestMormiAnswer}
      || (response.ui.Some? && response.ui.value.interaction in {AsksWhy, AsksWhatNext, ExpressesConfusion, Challenges})
    }

    predicate Sociable() {
      response.move in {MetaQuestion, Refusal, SafePlay} || route in {BridgeRoute, SafetyRoute}
    }

    predicate HasIncorrect() {
      structuredCorrect == Some(false) || exists c | c in response.claims :: c.verdict == Incorrect
    }

    /** Turns that say something about the child's teaching; the rest leave the ladder where it is. */
    predicate Counted() {
      && source != DeterministicFallback
      && (Progressed() || AsksForSupport() || !(Sociable() || source == AsrEmpty))
    }
  }

  datatype Ladder = Ladder(
    expression: ExpressionLevel,
    hint: HintLevel,
    expressionFailures: nat,
    conceptFailures: nat,
    vague: nat,
    unrelated: nat,
    maxHint: HintLevel)

  function HintRank(h: HintLevel): nat {
    match h case H0 => 0 case H1 => 1 case H2 => 2 case H3 => 3
  }

  /** Steps of expression support still ahead. */
  function ExpressionSteps(e: ExpressionLevel): nat {
    match e case L4 => 3 case L3 => 2 case L2 => 1 case L0 => 0
  }

  function Lower(e: ExpressionLevel): ExpressionLevel {
    match e case L4 => L3 case L3 => L2 case L2 => L0 case L0 => L0
  }

  function Increase(h: HintLevel): HintLevel {
    match h case H0 => H1 case H1 => H2 case H2 => H3 case H3 => H3
  }

  function MaxHint(a: HintLevel, b: HintLevel): HintLevel {
    if HintRank(a) < HintRank(b) then b else a
  }

  function RaiseHint(l: Ladder): Ladder {
    var expression := if l.hint == H2 then L0 else l.expression;
    var hint := if expression == L0 then H3 else Increase(l.hint);
    l.(expression := expression, hint := hint, maxHint := MaxHint(l.maxHint, hint))
  }

  function LowerExpression(l: Ladder): Ladder {
    var m := l.(expressionFailures := l.expressionFailures + 1, expression := Lower(l.expression));
    if m.expression == L0 then m.(hint := H3, maxHint := H3) else m
  }

  /** `_apply_ladder_policy` */
  function Policy(l: Ladder, s: Semantics): Ladder {
    if s.source == DeterministicFallback then l
    else if s.applied.NewCanonical() then
      var m := l.(expressionFailures := 0, conceptFailures := 0, vague := 0, unrelated := 0);
      if s.AsksForSupport() then RaiseHint(m) else m
    else if s.applied.NewPartial() then
      l.(vague := 0, unrelated := 0, expression := if l.expression == L4 then L3 else l.expression)
    else if s.AsksForSupport() then RaiseHint(l.(vague := 0))
    else if s.Sociable() then l.(unrelated := l.unrelated + 1)
    else if s.source == AsrEmpty then l
    else if s.source == SilenceTimeout || s.response.support == ExpressionNeed then LowerExpression(l)
    else if s.response.support == GeneralHelp then RaiseHint(LowerExpression(l))
    else if s.response.support in {ConceptNeed, BothNeeds} || s.HasIncorrect() then
      RaiseHint(l.(conceptFailures := l.conceptFailures + 1))
    else if l.vague == 0 then l.(vague := 1)
    else LowerExpression(l.(vague := 0))
  }

  /** The ladder invariant: H3 exactly at L0, at most one pending clarification, and before joint work no more concept
      failures than hints. */
  predicate LadderOk(l: Ladder) {
    && (l.hint == H3 <==> l.expression == L0)
    && l.vague <= 1
    && (l.expression != L0 ==> l.conceptFailures <= HintRank(l.hint))
  }

  /** Within a task the hint never falls and the expression level never rises, whatever the child does. */
  lemma PolicyIsMonotone(l: Ladder, s: Semantics)
    requires LadderOk(l)
    ensures var m := Policy(l, s);
            && LadderOk(m)
            && HintRank(l.hint) <= HintRank(m.hint)
            && ExpressionSteps(m.expression) <= ExpressionSteps(l.expression)
            && (l.expression == L0 ==> m.expression == L0)
  {}

  /** Before joint work a turn never brings the concept failures above three, so only there can they pile up. */
  lemma FailuresStayFew(l: Ladder, s: Semantics)
    requires LadderOk(l) && l.expression != L0
    ensures Policy(l, s).conceptFailures <= 3
  {}

  lemma RaiseRecords(l: Ladder)
    requires (l.hint == H3 <==> l.expression == L0) && l.maxHint == l.hint
    ensures RaiseHint(l).maxHint == RaiseHint(l).hint
  {}

  lemma LowerRecords(l: Ladder)
    requires LadderOk(l) && l.maxHint == l.hint
    ensures LowerExpression(l).maxHint == LowerExpression(l).hint && LadderOk(LowerExpression(l))
  {}

  /** The record of the highest hint keeps up with the hint. */
  lemma PolicyRecords(l: Ladder, s: Semantics)
    requires LadderOk(l) && l.maxHint == l.hint
    ensures Policy(l, s).maxHint == Policy(l, s).hint
  {
    hide RaiseHint, LowerExpression;
    RaiseRecords(l.(expressionFailures := 0, conceptFailures := 0, vague := 0, unrelated := 0));
    RaiseRecords(l.(vague := 0));
    RaiseRecords(l.(conceptFailures := l.conceptFailures + 1));
    LowerRecords(l);
    LowerRecords(l.(vague := 0));
    RaiseRecords(LowerExpression(l));
  }

  /** Steps of support still ahead. */
  function Steps(l: Ladder): nat {
    ExpressionSteps(l.expression) + (3 - HintRank(l.hint))
  }

  /** Before joint work, a counted turn without new progress uses up a step of support or the one clarification. */
  lemma StuckTurnSpendsSupport(l: Ladder, s: Semantics)
    requires LadderOk(l) && l.expression != L0 && s.Counted() && !s.Progressed()
    ensures var m := Policy(l, s); 2 * Steps(m) + (1 - m.vague) < 2 * Steps(l) + (1 - l.vague)
  {}

  lemma AnyTurnKeepsSupport(l: Ladder, s: Semantics)
    requires LadderOk(l)
    ensures var m := Policy(l, s); Steps(m) <= Steps(l)
    ensures var m := Policy(l, s); !s.Counted() ==> m == l.(unrelated := m.unrelated)
  {}
}
