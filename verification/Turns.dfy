/** From a child's response to the turn's semantics, and the response plan compiled before Mormi speaks.
    Both are shared by the home and the life engine. */
module Turns {
  import opened Common
  import opened Content
  import opened Ledgers
  import opened LedgerOperations
  import opened Ladders
  import opened Questions
  import opened Json

  /** What the bounded understanding pass hands to the turn: nothing usable, a social or safety response taken as it
      is, or a response whose claims crossed the evidence guard. */
  datatype Understood =
    | Unavailable
    | Unguarded(response: Response)
    | Admission(response: Response, matches: seq<Match>)

  datatype NoResponseKind = ExplicitHelp | Silence | EmptyAsr

  datatype Input =
    | Speech(understood: Understood)
    | NoAnswer(kind: NoResponseKind)
    | Pick(choiceIds: seq<string>)
    | Action(values: map<string, Json>)

  datatype Turn = Turn(id: string, input: Input)

  datatype TurnError =
    | NotAtL2 | OneChoiceExpected | UnknownChoice | NoPlan
    | NotAtL0 | WrongValues
    | LedgerFailure(error: LedgerError)
    | NoQuestion
    | UnknownTarget
    | PlanRejected
    | SpeechRejected

  /** `_route_for_understanding` */
  function RouteFor(r: Response): Route {
    if r.utterance in {SystemManipulation, SafetyRisk} then SafetyRoute
    else if r.ui.Some? then MainRoute
    else if r.utterance == NonLearningSafe then BridgeRoute
    else if r.move in {MetaQuestion, Refusal, SafePlay} && !r.containsEvidence then BridgeRoute
    else MainRoute
  }

  function PlainResponse(u: UtteranceClass, support: SupportNeed, evidence: bool): Response {
    Response(u, NoMove, support, None, evidence, [])
  }

  /** `_unchanged_result` */
  function Unchanged(pack: TaskPack, l: Ledger): Applied {
    Applied(NoProgress(l), CompletionOf(pack, l), false)
  }

  function SpeechSemantics(pack: TaskPack, ladder: Ladder, l: Ledger, turn: string, u: Understood): Result<Semantics,
      TurnError>
  {
    match u
    case Unavailable =>
      Ok(Semantics(PlainResponse(LearningResponse, NoSupport, false), Unchanged(pack, l), FallbackRoute,
        DeterministicFallback, None, false))
    case Unguarded(r) => Ok(Semantics(r, Unchanged(pack, l), RouteFor(r), SonnetLow, None, false))
    case Admission(r, matches) =>
      match Apply(pack, l, Guarded(r.claims, matches), turn)
      case Err(e) => Err(LedgerFailure(e))
      case Ok(applied) =>
        var initialHelp := ladder.expression == L4 && ladder.hint == H0 && r.support == GeneralHelp && r.move == NoMove;
        var route := if RouteFor(r) in {BridgeRoute, SafetyRoute} && r.claims != [] then MainRoute else RouteFor(r);
        Ok(Semantics(r, applied, if initialHelp then StableRoute else route, SonnetLow, None, initialHelp))
  }

  function NoAnswerSemantics(pack: TaskPack, ladder: Ladder, l: Ledger, kind: NoResponseKind): Semantics {
    match kind
    case ExplicitHelp =>
      Semantics(PlainResponse(HelpRequest, GeneralHelp, false), Unchanged(pack, l), StableRoute, ExplicitNoResponse,
        None,
                ladder.expression == L4 && ladder.hint == H0)
    case Silence =>
      Semantics(PlainResponse(LearningResponse, ExpressionNeed, false), Unchanged(pack, l), MainRoute, SilenceTimeout,
        None, false)
    case EmptyAsr =>
      Semantics(PlainResponse(LearningResponse, NoSupport, false), Unchanged(pack, l), MainRoute, AsrEmpty, None, false)
  }

  /** The plan whose id is the current subgoal, or else the plan of the active target. */
  function ActiveL2Plan(pack: TaskPack, ladder: Ladder, subgoal: string, l: Ledger): Option<L2Plan>
    requires forall p | p in pack.l3Plans :: |p.targets| == 1
  {
    match FirstL2ById(pack.l2Plans, subgoal)
    case Some(plan) => Some(plan)
    case None => FirstL2ByKey(pack.l2Plans, Keys(ActiveTargets(pack, ladder.expression, l)))
  }

  function FindChoice(choices: seq<Choice>, id: string): (r: Option<Choice>)
    ensures r.Some? ==> r.value in choices && r.value.choiceId == id
    ensures r.None? ==> forall c | c in choices :: c.choiceId != id
  {
    if choices == [] then None
    else
      assert choices == [choices[0]] + choices[1..];
      if choices[0].choiceId == id then Some(choices[0]) else FindChoice(choices[1..], id)
  }

  function ChoiceSemantics(pack: TaskPack, ladder: Ladder, subgoal: string, l: Ledger, turn: string,
      ids: seq<string>): Result<Semantics, TurnError>
    requires forall p | p in pack.l3Plans :: |p.targets| == 1
  {
    if ladder.expression != L2 then Err(NotAtL2)
    else
      match ActiveL2Plan(pack, ladder, subgoal, l)
      case None => Err(NoPlan)
      case Some(plan) =>
        if |ids| != 1 then Err(OneChoiceExpected)
        else
          match FindChoice(plan.choices, ids[0])
          case None => Err(UnknownChoice)
          case Some(c) =>
            if c.disabled then Err(UnknownChoice)
            else if c.effect.correct then
              match ApplyStructured(pack, l, c.effect.facts, c.effect.relations, turn, ChoiceSource)
              case Err(e) => Err(LedgerFailure(e))
              case Ok(applied) =>
                Ok(Semantics(PlainResponse(LearningResponse, NoSupport, true), applied, MainRoute, StructuredChoice,
                  Some(true), false))
            else
              Ok(Semantics(PlainResponse(LearningResponse, NoSupport, false), Unchanged(pack, l), MainRoute,
                StructuredChoice, Some(false), false))
  }

  function JointValues(joint: seq<JointCompletion>): (r: seq<(string, Value)>)
    ensures forall u :: u in r <==> JointFact(u.0, u.1) in joint
  {
    if joint == [] then []
    else
      assert joint == [joint[0]] + joint[1..];
      (if joint[0].JointFact? then [(joint[0].factId, joint[0].value)] else []) + JointValues(joint[1..])
  }

  function JointRelations(joint: seq<JointCompletion>): (r: seq<string>)
    ensures forall x :: x in r <==> JointRelation(x) in joint
  {
    if joint == [] then []
    else
      assert joint == [joint[0]] + joint[1..];
      (if joint[0].JointRelation? then [joint[0].relationId] else []) + JointRelations(joint[1..])
  }

  function Within(ids: seq<string>, allowed: set<string>): (r: seq<string>)
    ensures forall x :: x in r <==> x in ids && x in allowed
  {
    if ids == [] then []
    else
      assert ids == [ids[0]] + ids[1..];
      var rest := Within(ids[1..], allowed);
      if ids[0] in allowed then [ids[0]] + rest else rest
  }

  /** The relations a joint action establishes: the pinned ones and every note relation the H3 card covers. */
  function JointlyPerformed(pack: TaskPack): seq<string> {
    Dedup(JointRelations(pack.joint) + Within(pack.noteRelations, pack.h3Relations))
  }

  function JointSemantics(pack: TaskPack, ladder: Ladder, l: Ledger, turn: string,
      values: map<string, Json>): Result<Semantics, TurnError>
  {
    if ladder.expression != L0 || ladder.hint != H3 then Err(NotAtL0)
    else if !SameJson(JObject(values), JObject(CompletionValues(pack.joint))) then Err(WrongValues)
    else
      match ApplyStructured(pack, l, JointValues(pack.joint), JointlyPerformed(pack), turn, JointSource)
      case Err(e) => Err(LedgerFailure(e))
      case Ok(applied) =>
        Ok(Semantics(PlainResponse(LearningResponse, NoSupport, true), applied, StableRoute, StructuredJoint,
          Some(true), false))
  }

  /** `_interpret_execution` */
  function Interpret(pack: TaskPack, ladder: Ladder, subgoal: string, l: Ledger, t: Turn): Result<Semantics, TurnError>
    requires forall p | p in pack.l3Plans :: |p.targets| == 1
  {
    match t.input
    case Speech(u) => SpeechSemantics(pack, ladder, l, t.id, u)
    case NoAnswer(kind) => Ok(NoAnswerSemantics(pack, ladder, l, kind))
    case Pick(ids) => ChoiceSemantics(pack, ladder, subgoal, l, t.id, ids)
    case Action(values) => JointSemantics(pack, ladder, l, t.id, values)
  }

  lemma UnchangedIsSound(pack: TaskPack, l: Ledger)
    requires WellFormed(l) && BoundTo(l, pack) && |l.auxiliary| <= MAX_AUXILIARY
    ensures Sound(pack, l, Unchanged(pack, l))
  {
    NoProgressGrown(l);
    CompleteIffRequiredVerified(pack, l);
  }

  /** A usable ledger: what every stored state keeps. */
  ghost predicate Usable(pack: TaskPack, l: Ledger) {
    WellFormed(l) && BoundTo(l, pack) && |l.auxiliary| <= MAX_AUXILIARY
  }

  /** However a turn is answered, its ledger outcome is sound, and only free text can add partial attempts. */
  lemma InterpretIsSound(pack: TaskPack, ladder: Ladder, subgoal: string, l: Ledger, t: Turn)
    requires forall p | p in pack.l3Plans :: |p.targets| == 1
    requires Usable(pack, l)
    requires Interpret(pack, ladder, subgoal, l, t).Ok?
    ensures Sound(pack, l, Interpret(pack, ladder, subgoal, l, t).value.applied)
  {
    hide Apply, ApplyStructured, Sound, ActiveL2Plan, WellFormed, BoundTo, RouteFor;
    UnchangedIsSound(pack, l);
    match t.input
    case Speech(u) =>
      if u.Admission? { ApplyIsSound(pack, l, Guarded(u.response.claims, u.matches), t.id); }
    case NoAnswer(_) =>
    case Pick(ids) =>
      var plan := ActiveL2Plan(pack, ladder, subgoal, l).value;
      var e := FindChoice(plan.choices, ids[0]).value.effect;
      if e.correct { ApplyStructuredIsSound(pack, l, e.facts, e.relations, t.id, ChoiceSource); }
    case Action(_) =>
      ApplyStructuredIsSound(pack, l, JointValues(pack.joint), JointlyPerformed(pack), t.id, JointSource);
  }

  /** However a turn is answered, it reports the evidence behind every relation it newly verifies. */
  lemma InterpretIsEvidenced(pack: TaskPack, ladder: Ladder, subgoal: string, l: Ledger, t: Turn)
    requires forall p | p in pack.l3Plans :: |p.targets| == 1
    requires Interpret(pack, ladder, subgoal, l, t).Ok?
    ensures Evidenced(l, Interpret(pack, ladder, subgoal, l, t).value.applied.progress)
  {
    hide Apply, ApplyStructured, CompletionOf, ActiveL2Plan;
    match t.input
    case Speech(u) =>
      if u.Admission? { ApplyIsEvidenced(pack, l, Guarded(u.response.claims, u.matches), t.id); }
    case NoAnswer(_) =>
    case Pick(ids) =>
      var plan := ActiveL2Plan(pack, ladder, subgoal, l).value;
      var e := FindChoice(plan.choices, ids[0]).value.effect;
      if e.correct { ApplyStructuredIsEvidenced(pack, l, e.facts, e.relations, t.id, ChoiceSource); }
    case Action(_) =>
      ApplyStructuredIsEvidenced(pack, l, JointValues(pack.joint), JointlyPerformed(pack), t.id, JointSource);
  }

  // ----- the response plan -----

  datatype ResponseMode =
    | AnswerMeta | AnswerRefusal | AnswerPlay | DeclineAnswer | RedirectToCard | RedirectSafety | Normal

  datatype ReaskMode = JointAction | HelpGuided | RemainingTargets

  datatype ResponsePlan = ResponsePlan(
    mode: ResponseMode,
    reask: ReaskMode,
    targets: seq<Key>,
    cardVisible: bool,
    cardEvent: bool,
    hint: HintLevel)

  function KeysInOrder(targets: seq<Target>): (r: seq<Key>)
    ensures |r| == |targets| && forall i :: 0 <= i < |r| ==> r[i] == targets[i].key
  {
    seq(|targets|, i requires 0 <= i < |targets| => targets[i].key)
  }

  /** `_conversation_response_plan` */
  function CompilePlan(after: Ladder, s: Semantics, targets: seq<Target>, beforeHint: HintLevel): ResponsePlan {
    var visible := after.hint != H0;
    var mode :=
      match s.response.move
      case MetaQuestion => AnswerMeta
      case Refusal => AnswerRefusal
      case SafePlay => AnswerPlay
      case RequestMormiAnswer => DeclineAnswer
      case _ =>
        if || s.response.move == TaskQuestion || s.response.ui.Some?
           || (visible && (s.HasIncorrect() || s.response.support in {ConceptNeed, BothNeeds, GeneralHelp}))
        then RedirectToCard
        else if s.route == SafetyRoute then RedirectSafety
        else Normal;
    var reask :=
      if after.expression == L0 then JointAction
      else if mode in {RedirectToCard, DeclineAnswer} then HelpGuided
      else RemainingTargets;
    ResponsePlan(mode, reask, KeysInOrder(targets), visible, visible && after.hint != beforeHint, after.hint)
  }

  /** `validate_public_support_context` with the field bounds */
  predicate PlanValid(p: ResponsePlan) {
    && 1 <= |p.targets| <= 16
    && (forall i, j :: 0 <= i < j < |p.targets| ==> p.targets[i] != p.targets[j])
    && (p.cardVisible <==> p.hint != H0)
    && (p.cardEvent ==> p.cardVisible)
    && (if p.reask == HelpGuided then p.cardVisible && p.mode in {RedirectToCard, DeclineAnswer}
        else p.mode in {RedirectToCard, DeclineAnswer} ==> p.reask == JointAction)
    && (p.reask == JointAction ==> p.cardVisible && p.hint == H3)
  }

  /** A partial method without any newly verified target. */
  predicate PartialOnly(s: Semantics) {
    s.source != DeterministicFallback && !s.applied.NewCanonical() && s.applied.NewPartial()
  }

  /** UI references that reach the policy point at a card that was on screen. */
  predicate UiGrounded(beforeHint: HintLevel, s: Semantics) {
    beforeHint == H0 ==> s.response.ui.None?
  }

  /** Semantics as the engine builds them: UI references are grounded, except in a safety turn's unguarded response, a
      fallback carries no response, and stable turns, the initial help among them, carry no question to Mormi. */
  predicate Proper(ladder: Ladder, sem: Semantics) {
    && (sem.route != SafetyRoute ==> UiGrounded(ladder.hint, sem))
    && (sem.source == DeterministicFallback ==> sem.response == PlainResponse(LearningResponse, NoSupport, false))
    && (sem.initialHelp ==> sem.route == StableRoute)
    && (sem.route == StableRoute ==> sem.response.move == NoMove)
  }

  /** The compiled plan for distinct targets meets its own validator on every turn but one kind: a question to Mormi in
      the same breath as a new partial method, while no card is open. The policy raises no hint then, yet the plan
      points at the card. */
  lemma PlanValidIff(before: Ladder, s: Semantics, targets: seq<Target>)
    requires LadderOk(before) && UiGrounded(before.hint, s)
    requires s.source == DeterministicFallback ==> s.response == PlainResponse(LearningResponse, NoSupport, false)
    requires 1 <= |targets| <= 16
    ensures var after := Policy(before, s);
            PlanValid(CompilePlan(after, s, targets, before.hint)) <==>
            DistinctKeys(targets) && !(PartialOnly(s) && s.response.move in {TaskQuestion, RequestMormiAnswer}
              && after.hint == H0)
  {
    PolicyIsMonotone(before, s);
  }

  // ----- who speaks -----

  /** What a turn that leaves its task open is answered with: reviewed text, the small bridge speaker, or the main
      speaker. */
  datatype Voice = ReviewedCopy | BridgeVoice | MainVoice

  /** `_uses_reviewed_expression_support`: the reviewed, easier question is the whole answer. */
  predicate ReviewedQuestion(s: Semantics) {
    && s.route == MainRoute && s.source == SonnetLow && s.response.support == ExpressionNeed
    && s.response.move == NoMove && !s.response.containsEvidence && !s.Progressed()
  }

  /** `_render_execution_speech`; `copied` says that the next question has stable copy for this step of the ladder. */
  function VoiceOf(s: Semantics, copied: bool): Voice {
    if s.route == FallbackRoute || ReviewedQuestion(s) || (s.route == StableRoute && copied) || s.route == SafetyRoute
    then ReviewedCopy
    else if s.route == BridgeRoute then BridgeVoice
    else MainVoice
  }

  /** The targets of the reviewed first help. */
  function HelpTargets(pack: TaskPack): seq<Target> {
    match SlotFor(pack.copySlots, InitialHelp)
    case Some(slot) => slot.targets
    case None => []
  }

  /** `delta.progress_kind == "answer_only"` */
  predicate AnswerOnly(s: Semantics) {
    var p := s.applied.progress;
    p.newFacts != [] && p.newRelations == [] && p.newPartials == []
  }

  // ----- what the speaker is told -----

  /** The raw-free account of the child's turn. */
  datatype Signal = Signal(
    triedFacts: seq<string>,
    triedRelations: seq<string>,
    wrongFacts: seq<string>,
    wrongRelations: seq<string>,
    newFacts: seq<string>,
    newRelations: seq<string>,
    repeats: nat)

  /** `named` are the verified facts whose labels are put in the plan's form, `allowed` the ones Mormi may say. */
  datatype SpeakerPlan = SpeakerPlan(
    signal: Signal,
    evidence: seq<EvidenceId>,
    named: set<string>,
    allowed: set<string>,
    refersToCard: bool,
    cardVisible: bool)

  predicate About(c: Claim, kind: TargetKind) {
    match kind
    case FactTarget => c.FactClaim?
    case RelationTarget => c.RelationClaim?
  }

  /** The targets of one kind that the claims are about, or that they are wrong about. */
  function Claimed(claims: seq<Claim>, kind: TargetKind, wrong: bool): (r: seq<string>)
    ensures |r| <= |claims|
    ensures forall x :: x in r <==>
              exists c | c in claims :: About(c, kind) && (wrong ==> c.verdict == Incorrect) && TargetName(c) == x
  {
    if claims == [] then []
    else
      assert claims == [claims[0]] + claims[1..];
      (if About(claims[0], kind) && (wrong ==> claims[0].verdict == Incorrect) then [TargetName(claims[0])] else [])
      + Claimed(claims[1..], kind, wrong)
  }

  function AskedIds(targets: seq<Target>, kind: TargetKind): (r: seq<string>)
    ensures |r| <= |targets|
    ensures forall x :: x in r <==> exists t | t in targets :: t.key == TargetKey(kind, x)
  {
    if targets == [] then []
    else
      assert targets == [targets[0]] + targets[1..];
      (if targets[0].key.kind == kind then [targets[0].key.id] else []) + AskedIds(targets[1..], kind)
  }

  /** The evidence the speaker is given for the claim. */
  function Mark(c: Claim, recorded: map<string, EvidenceId>): Option<EvidenceId> {
    if Positive(c.verdict) && c.claimId in recorded then Some(recorded[c.claimId]) else None
  }

  /** The evidence recorded for the claims, claim by claim. */
  function Given(claims: seq<Claim>, recorded: map<string, EvidenceId>): (r: seq<EvidenceId>)
    ensures |r| <= |claims|
  {
    if claims == [] then []
    else
      (match Mark(claims[0], recorded) case Some(x) => [x] case None => []) + Given(claims[1..], recorded)
  }

  /** The claims that crossed the guard this turn. */
  function Guarding(s: Semantics): seq<Claim> {
    if s.source == SonnetLow then s.response.claims else []
  }

  function GivenEvidence(s: Semantics): seq<EvidenceId> {
    Given(Guarding(s), s.applied.progress.claimEvidence)
  }

  /** `_speaker_response_signal` */
  function CompileSignal(after: Ladder, s: Semantics, targets: seq<Target>): Signal {
    var chosen := s.source == StructuredChoice;
    var tried := (kind: TargetKind) => if chosen then AskedIds(targets, kind)
      else Dedup(Claimed(Guarding(s), kind, false));
    var wrong := (kind: TargetKind) =>
      if chosen && s.structuredCorrect == Some(false) then tried(kind) else Dedup(Claimed(Guarding(s), kind, true));
    Signal(tried(FactTarget), tried(RelationTarget), wrong(FactTarget), wrong(RelationTarget),
           s.applied.progress.newFacts, s.applied.progress.newRelations, after.conceptFailures)
  }

  /** The verified facts outside the targets, whose labels the plan's form reads. */
  function Named(pack: TaskPack, l: Ledger, targets: seq<Target>): set<string> {
    set f | f in l.facts && f in pack.facts && TargetKey(FactTarget, f) !in Keys(targets)
  }

  /** The speaker plan of `_speak` */
  function CompileSpeakerPlan(pack: TaskPack, after: Ladder, s: Semantics, targets: seq<Target>): SpeakerPlan {
    var named := Named(pack, s.applied.Ledger(), targets);
    SpeakerPlan(CompileSignal(after, s, targets), GivenEvidence(s), named,
      named * Elements(s.applied.progress.newFacts),
                s.response.ui.Some?, after.hint != H0)
  }

  const MAX_SIGNAL_IDS := 8
  const MAX_EVIDENCE := 20
  const MAX_RELATIONS := 20
  const MAX_FACTS := 30
  const MAX_REPEATS := 100

  predicate ShortList(ids: seq<string>) {
    |ids| <= MAX_SIGNAL_IDS && NoRepeats(ids)
  }

  /** `ids_are_unique_and_incorrect_ids_were_attempted` with the field bounds */
  predicate SignalValid(g: Signal) {
    && ShortList(g.triedFacts) && ShortList(g.triedRelations)
    && ShortList(g.wrongFacts) && ShortList(g.wrongRelations)
    && ShortList(g.newFacts) && ShortList(g.newRelations)
    && Elements(g.wrongFacts) <= Elements(g.triedFacts) && Elements(g.wrongRelations) <= Elements(g.triedRelations)
    && g.repeats <= MAX_REPEATS
  }

  /** `validate_closed_world_plan` with the field bounds and the label check of each named fact */
  predicate SpeakerPlanValid(pack: TaskPack, p: SpeakerPlan) {
    && SignalValid(p.signal)
    && |p.evidence| <= MAX_EVIDENCE && NoRepeats(p.evidence)
    && |p.signal.newRelations| <= MAX_RELATIONS && |p.allowed| <= MAX_FACTS
    && (forall f | f in p.named :: f in pack.facts && pack.facts[f].plainLabel)
    && (p.refersToCard ==> p.cardVisible)
  }

  /** How speaking fails, if it does: the targets' labels are looked up on every turn, then the response plan and
      the plan of whoever speaks are validated. */
  function SpeechFailure(pack: TaskPack, after: Ladder, s: Semantics, asked: seq<Target>, beforeHint: HintLevel,
      copied: bool): (r: Option<TurnError>)
    ensures r.Some? ==> r.value in {UnknownTarget, PlanRejected, SpeechRejected}
  {
    var targets := if s.initialHelp then HelpTargets(pack) else asked;
    if exists t | t in targets :: !pack.Known(t.key) then Some(UnknownTarget)
    else
      var voice := VoiceOf(s, copied);
      if voice == ReviewedCopy then None
      else if !PlanValid(CompilePlan(after, s, targets, beforeHint)) then Some(PlanRejected)
      else if voice == BridgeVoice then if after.unrelated > MAX_REPEATS then Some(SpeechRejected) else None
      else if AnswerOnly(s) && s.response.move == NoMove then None
      else if SpeakerPlanValid(pack, CompileSpeakerPlan(pack, after, s, targets)) then None
      else Some(SpeechRejected)
  }

  // ----- when speaking fails -----

  /** Every verified fact's label is plain, except where the first help asks for that very fact. */
  predicate LabelsFit(pack: TaskPack, s: Semantics) {
    forall f | f in s.applied.Ledger().facts && f in pack.facts ::
      pack.facts[f].plainLabel || (s.initialHelp && TargetKey(FactTarget, f) in Keys(HelpTargets(pack)))
  }

  /** What a turn that is put to the main speaker must keep to. */
  predicate FitsSpeaker(pack: TaskPack, after: Ladder, s: Semantics) {
    && LabelsFit(pack, s)
    && |Dedup(Claimed(Guarding(s), FactTarget, false))| <= MAX_SIGNAL_IDS
    && |Dedup(Claimed(Guarding(s), RelationTarget, false))| <= MAX_SIGNAL_IDS
    && |s.applied.progress.newFacts| <= MAX_SIGNAL_IDS && |s.applied.progress.newRelations| <= MAX_SIGNAL_IDS
    && after.conceptFailures <= MAX_REPEATS
    && |GivenEvidence(s)| <= MAX_EVIDENCE && NoRepeats(GivenEvidence(s))
  }

  lemma {:induction false} AskedIdsAreUnique(targets: seq<Target>, kind: TargetKind)
    requires DistinctKeys(targets)
    ensures NoRepeats(AskedIds(targets, kind))
  {
    NoRepeatsIffUnique(AskedIds(targets, kind));
    if targets != [] {
      AskedIdsAreUnique(targets[1..], kind);
      NoRepeatsIffUnique(AskedIds(targets[1..], kind));
    }
  }

  lemma DedupKeeps(s: seq<string>)
    ensures NoRepeats(Dedup(s)) && forall x :: x in Elements(Dedup(s)) <==> x in s
  {
    NoRepeatsIffUnique(Dedup(s));
    assert forall x :: x in Elements(s) <==> x in s;
  }

  /** The wrong targets are among the tried ones, so their lists are no longer. */
  lemma WrongIsTried(claims: seq<Claim>, kind: TargetKind)
    ensures var tried, wrong := Dedup(Claimed(claims, kind, false)), Dedup(Claimed(claims, kind, true));
            && NoRepeats(tried) && NoRepeats(wrong) && Elements(wrong) <= Elements(tried) && |wrong| <= |tried|
  {
    hide TargetName, Dedup, Claimed;
    DedupKeeps(Claimed(claims, kind, false));
    DedupKeeps(Claimed(claims, kind, true));
    var tried, wrong := Dedup(Claimed(claims, kind, false)), Dedup(Claimed(claims, kind, true));
    forall x | x in Elements(wrong) ensures x in Elements(tried) {
      var c :| c in claims && About(c, kind) && c.verdict == Incorrect && TargetName(c) == x;
    }
    SubsetCardinality(Elements(wrong), Elements(tried));
  }

  /** The signal's own checks fail only for its bounds. */
  lemma SignalValidIff(after: Ladder, s: Semantics, targets: seq<Target>)
    requires Unique(s.applied.progress.newFacts) && Unique(s.applied.progress.newRelations)
    requires DistinctKeys(targets) && |targets| <= 4
    ensures SignalValid(CompileSignal(after, s, targets)) <==>
            && |s.applied.progress.newFacts| <= MAX_SIGNAL_IDS && |s.applied.progress.newRelations| <= MAX_SIGNAL_IDS
            && |Dedup(Claimed(Guarding(s), FactTarget, false))| <= MAX_SIGNAL_IDS
            && |Dedup(Claimed(Guarding(s), RelationTarget, false))| <= MAX_SIGNAL_IDS
            && after.conceptFailures <= MAX_REPEATS
  {
    hide Claimed, AskedIds, Dedup, NoRepeats;
    NoRepeatsIffUnique(s.applied.progress.newFacts);
    NoRepeatsIffUnique(s.applied.progress.newRelations);
    WrongIsTried(Guarding(s), FactTarget);
    WrongIsTried(Guarding(s), RelationTarget);
    AskedIdsAreUnique(targets, FactTarget);
    AskedIdsAreUnique(targets, RelationTarget);
    if s.source == StructuredChoice {
      NothingClaimed(FactTarget);
      NothingClaimed(RelationTarget);
    }
  }

  lemma NothingClaimed(kind: TargetKind)
    ensures Dedup(Claimed([], kind, false)) == [] && Dedup(Claimed([], kind, true)) == []
    ensures NoRepeats(Dedup(Claimed([], kind, true))) && Elements(Dedup(Claimed([], kind, true))) == {}
  {
    assert Elements<string>([]) == {};
  }

  /** Outside the first help, the open targets are unverified, so every verified fact's label counts. */
  lemma LabelsFitIff(pack: TaskPack, s: Semantics, asked: seq<Target>)
    requires forall t | t in asked :: t.key !in Verified(s.applied.Ledger())
    ensures var named := Named(pack, s.applied.Ledger(), if s.initialHelp then HelpTargets(pack) else asked);
            (forall f | f in named :: f in pack.facts && pack.facts[f].plainLabel) <==> LabelsFit(pack, s)
  {
    hide HelpTargets;
    var l := s.applied.Ledger();
    if !s.initialHelp {
      forall f | f in l.facts ensures TargetKey(FactTarget, f) !in Keys(asked) {
        assert TargetKey(FactTarget, f) in Verified(l);
      }
    }
  }

  lemma SpeakerPlanValidIff(pack: TaskPack, after: Ladder, s: Semantics, asked: seq<Target>)
    requires Unique(s.applied.progress.newFacts) && Unique(s.applied.progress.newRelations)
    requires forall t | t in asked :: t.key !in Verified(s.applied.Ledger())
    requires var targets := if s.initialHelp then HelpTargets(pack) else asked; DistinctKeys(targets) && |targets| <= 4
    requires s.response.ui.Some? ==> after.hint != H0
    ensures var targets := if s.initialHelp then HelpTargets(pack) else asked;
            SpeakerPlanValid(pack, CompileSpeakerPlan(pack, after, s, targets)) <==> FitsSpeaker(pack, after, s)
  {
    hide HelpTargets, SignalValid, CompileSignal, NoRepeats, LabelsFit, GivenEvidence, Verified, Named, Dedup, Claimed;
    var targets := if s.initialHelp then HelpTargets(pack) else asked;
    SignalValidIff(after, s, targets);
    LabelsFitIff(pack, s, asked);
    var plan := CompileSpeakerPlan(pack, after, s, targets);
    SignalReports(after, s, targets);
    FewElements(s.applied.progress.newFacts);
    SubsetCardinality(plan.allowed, Elements(s.applied.progress.newFacts));
  }

  lemma SignalReports(after: Ladder, s: Semantics, targets: seq<Target>)
    ensures CompileSignal(after, s, targets).newRelations == s.applied.progress.newRelations
    ensures CompileSignal(after, s, targets).newFacts == s.applied.progress.newFacts
  {
    hide Dedup, Claimed, AskedIds;
  }

  /** No verified fact has a label that names another number. */
  predicate PlainLabels(pack: TaskPack, l: Ledger) {
    forall f | f in l.facts && f in pack.facts :: pack.facts[f].plainLabel
  }

  lemma NoClaimsFit(pack: TaskPack, after: Ladder, sem: Semantics)
    requires Guarding(sem) == [] && after.conceptFailures <= MAX_REPEATS
    ensures FitsSpeaker(pack, after, sem) <==>
            && LabelsFit(pack, sem)
            && |sem.applied.progress.newFacts| <= MAX_SIGNAL_IDS
                 && |sem.applied.progress.newRelations| <= MAX_SIGNAL_IDS
  {
    hide LabelsFit;
    assert Elements<EvidenceId>([]) == {};
  }

  /** A turn Mormi cannot answer: a new partial method and a request to Mormi in one breath, with no card open. */
  predicate Unanswerable(before: Ladder, s: Semantics) {
    && s.route in {MainRoute, BridgeRoute} && !ReviewedQuestion(s) && PartialOnly(s)
    && s.response.move in {TaskQuestion, RequestMormiAnswer} && Policy(before, s).hint == H0
  }

  /** A bridge turn after a hundred others without progress. */
  predicate Unbridgeable(before: Ladder, s: Semantics) {
    s.route == BridgeRoute && Policy(before, s).unrelated > MAX_REPEATS
  }

  /** A turn put to the main speaker that does not fit the speaker's plan; bare answers are acknowledged without one. */
  predicate Unspeakable(pack: TaskPack, before: Ladder, s: Semantics, copied: bool) {
    && VoiceOf(s, copied) == MainVoice && !(AnswerOnly(s) && s.response.move == NoMove)
    && !FitsSpeaker(pack, Policy(before, s), s)
  }

  /** A first help that asks about something the pack does not have. */
  predicate Unhelpful(pack: TaskPack, s: Semantics) {
    s.initialHelp && exists t | t in HelpTargets(pack) :: !pack.Known(t.key)
  }

  /** Mormi cannot answer the turn. */
  predicate Speechless(pack: TaskPack, before: Ladder, s: Semantics, copied: bool) {
    Unhelpful(pack, s) || Unanswerable(before, s) || Unbridgeable(before, s) || Unspeakable(pack, before, s, copied)
  }

  /** The response plan is rejected on unanswerable turns only. */
  lemma PlanFailsIff(before: Ladder, s: Semantics, targets: seq<Target>, copied: bool)
    requires LadderOk(before) && Proper(before, s) && DistinctKeys(targets) && 1 <= |targets| <= 4
    ensures VoiceOf(s, copied) != ReviewedCopy ==>
              (PlanValid(CompilePlan(Policy(before, s), s, targets, before.hint)) <==> !Unanswerable(before, s))
    ensures VoiceOf(s, copied) == ReviewedCopy ==> !Unanswerable(before, s)
  {
    hide Policy, PlanValid, CompilePlan, PartialOnly, LadderOk;
    if VoiceOf(s, copied) != ReviewedCopy { PlanValidIff(before, s, targets); }
  }

  /** Speaking fails exactly on the turns Mormi cannot answer. */
  lemma SpeechFailsIff(pack: TaskPack, before: Ladder, s: Semantics, asked: seq<Target>, copied: bool)
    requires LadderOk(before) && Proper(before, s)
    requires Unique(s.applied.progress.newFacts) && Unique(s.applied.progress.newRelations)
    requires DistinctKeys(asked) && 1 <= |asked| <= 4
    requires forall t | t in asked :: pack.Known(t.key) && t.key !in Verified(s.applied.Ledger())
    requires s.initialHelp && !copied ==> DistinctKeys(HelpTargets(pack)) && 1 <= |HelpTargets(pack)| <= 4
    ensures SpeechFailure(pack, Policy(before, s), s, asked, before.hint, copied).Some? <==>
            Speechless(pack, before, s, copied)
  {
    hide Policy, PlanValid, CompilePlan, LadderOk, HelpTargets, SpeakerPlanValid, CompileSpeakerPlan, FitsSpeaker,
         AnswerOnly, TaskPack.Known, PartialOnly;
    var targets := if s.initialHelp then HelpTargets(pack) else asked;
    if VoiceOf(s, copied) == ReviewedCopy {
      PlanFailsIff(before, s, asked, copied);
    } else {
      PlanFailsIff(before, s, targets, copied);
      CardStays(before, s);
      SpeakerPlanValidIff(pack, Policy(before, s), s, asked);
    }
  }

  lemma CardStays(before: Ladder, s: Semantics)
    requires LadderOk(before) && Proper(before, s) && s.route != SafetyRoute
    ensures s.response.ui.Some? ==> Policy(before, s).hint != H0
  {
    PolicyIsMonotone(before, s);
    hide Policy;
  }

  /** A plain turn of the main route that asks nothing of Mormi is unanswerable only if it does not fit the speaker. */
  lemma MainSpeech(pack: TaskPack, before: Ladder, s: Semantics, copied: bool)
    requires s.route == MainRoute && s.response.move == NoMove && s.response.ui == None && !s.initialHelp
    requires s.source != DeterministicFallback && !ReviewedQuestion(s)
    ensures Proper(before, s)
    ensures Speechless(pack, before, s, copied) <==> !AnswerOnly(s) && !FitsSpeaker(pack, Policy(before, s), s)
  {
    hide FitsSpeaker, Policy, AnswerOnly;
  }

  // ----- when evidence repeats -----

  /** Claims with evidence each have their own. */
  ghost predicate OwnEvidence(claims: seq<Claim>, recorded: map<string, EvidenceId>) {
    forall i, j | 0 <= i < j < |claims| :: Mark(claims[i], recorded).Some? ==>
      Mark(claims[i], recorded) != Mark(claims[j], recorded)
  }

  lemma {:induction false} GivenHas(claims: seq<Claim>, recorded: map<string, EvidenceId>, x: EvidenceId)
    ensures x in Given(claims, recorded) <==> exists c | c in claims :: Mark(c, recorded) == Some(x)
  {
    hide Mark;
    if claims != [] {
      assert claims == [claims[0]] + claims[1..];
      GivenHas(claims[1..], recorded, x);
    }
  }

  lemma OwnEvidenceFirst(first: Claim, rest: seq<Claim>, recorded: map<string, EvidenceId>)
    ensures OwnEvidence([first] + rest, recorded) <==>
            && OwnEvidence(rest, recorded)
            && (Mark(first, recorded).Some? ==> forall c | c in rest :: Mark(c, recorded) != Mark(first, recorded))
  {
    hide Mark;
    var all := [first] + rest;
    assert forall j | 0 <= j < |rest| :: all[j + 1] == rest[j];
    if OwnEvidence(all, recorded) {
      forall i, j | 0 <= i < j < |rest| && Mark(rest[i], recorded).Some?
        ensures Mark(rest[i], recorded) != Mark(rest[j], recorded)
      {
        assert all[i + 1] == rest[i] && all[j + 1] == rest[j];
      }
      forall c | c in rest && Mark(first, recorded).Some? ensures Mark(c, recorded) != Mark(first, recorded) {
        var j :| 0 <= j < |rest| && rest[j] == c;
        assert all[0] == first && all[j + 1] == c;
      }
    }
  }

  lemma {:induction false} GivenIsUnique(claims: seq<Claim>, recorded: map<string, EvidenceId>)
    ensures Unique(Given(claims, recorded)) <==> OwnEvidence(claims, recorded)
  {
    if claims != [] {
      hide OwnEvidence, Unique;
      var first, rest := claims[0], claims[1..];
      assert claims == [first] + rest;
      GivenIsUnique(rest, recorded);
      OwnEvidenceFirst(first, rest, recorded);
      match Mark(first, recorded)
      case Some(x) =>
        GivenHas(rest, recorded, x);
        GivenOneMore(x, Given(rest, recorded));
      case None =>
        assert Given(claims, recorded) == Given(rest, recorded);
    } else {
      assert Given(claims, recorded) == [];
    }
  }

  lemma GivenOneMore(x: EvidenceId, ids: seq<EvidenceId>)
    ensures Unique([x] + ids) <==> x !in ids && Unique(ids)
  {
    var all := [x] + ids;
    assert forall i | 0 <= i < |ids| :: all[i + 1] == ids[i];
    if Unique(all) {
      forall i, j | 0 <= i < j < |ids| ensures ids[i] != ids[j] { assert all[i + 1] != all[j + 1]; }
      forall i | 0 <= i < |ids| ensures ids[i] != x { assert all[0] != all[i + 1]; }
    }
  }

  /** The two claims say the same of the same target in the same place. */
  predicate SameEvidence(a: Admitted, b: Admitted) {
    && a.range == b.range && a.claim.verdict == b.claim.verdict
    && KindName(a.claim) == KindName(b.claim) && TargetName(a.claim) == TargetName(b.claim)
  }

  /** Claims with an effect: neither ignored nor without weight. */
  predicate TakesEffect(a: Admitted, recorded: map<string, EvidenceId>) {
    a.claim.claimId in recorded
  }

  /** The speaker is given the same evidence twice exactly when two claims of the turn, each with an effect, say the
      same of the same target in the same place. Claim ids are unique, yet nothing else about claims is. */
  lemma EvidenceRepeatsIff(pack: TaskPack, l: Ledger, g: Guarded, turn: string)
    requires Apply(pack, l, g, turn).Ok?
    requires forall i, j :: 0 <= i < j < |g.claims| ==> g.claims[i].claimId != g.claims[j].claimId
    ensures var recorded := Apply(pack, l, g, turn).value.progress.claimEvidence;
            var claims := Pairs(g);
            NoRepeats(Given(g.claims, recorded)) <==>
            !exists i, j ::
              0 <= i < j < |claims| && TakesEffect(claims[i], recorded) && TakesEffect(claims[j], recorded)
              && SameEvidence(claims[i], claims[j])
  {
    hide ClaimFold, Pairs, OneMatchPerClaim, BoundTo, CompletionOf, Complete, NoRepeats, Given;
    var recorded := Apply(pack, l, g, turn).value.progress.claimEvidence;
    var claims := Pairs(g);
    NoRepeatsIffUnique(Given(g.claims, recorded));
    GivenIsUnique(g.claims, recorded);
    forall i: nat | i < |claims|
      ensures claims[i].claim == g.claims[i]
      ensures Mark(g.claims[i], recorded)
           == if TakesEffect(claims[i], recorded) then Some(EvidenceFor(turn, claims[i]).id) else None
    {
      ClaimIsRecorded(pack, turn, NoProgress(l), claims, i);
    }
  }
}
