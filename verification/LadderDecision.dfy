/** The ladder recommendation computed from two sessions' evidence. Accuracies are compared as exact fractions. */
module LadderDecision {
  import opened Common
  import opened Content
  import opened Ladders

  datatype Performance = Performance(correct: nat, attempts: nat)

  datatype Evidence = Evidence(
    current: ExpressionLevel,
    performance: map<ExpressionLevel, Performance>,
    predictions: seq<ExpressionLevel>,
    validSpeech: nat,
    lowerRules: nat,
    completedSessions: nat)
  {
    function Current(): Performance {
      if current in performance then performance[current] else Performance(0, 0)
    }
  }

  datatype Action = Upgrade | Maintain | AdjustDown | InsufficientEvidence

  datatype Reason = TwoLowerPredictions | LowAccuracy | RepeatedRuleDescent | Mastery | MaintainCurrent | Insufficient

  datatype Decision = Decision(action: Action, current: ExpressionLevel, recommended: ExpressionLevel, reason: Reason)

  /** `ladder_rank`: L0 0, L2 1, L3 2, L4 3 */
  function Rank(e: ExpressionLevel): nat { ExpressionSteps(e) }

  function Higher(e: ExpressionLevel): ExpressionLevel {
    match e case L0 => L2 case L2 => L3 case L3 => L4 case L4 => L4
  }

  predicate LastTwo(predictions: seq<ExpressionLevel>, p: ExpressionLevel -> bool) {
    |predictions| >= 2 && p(predictions[|predictions| - 2]) && p(predictions[|predictions| - 1])
  }

  /** `decide_ladder_adjustment` */
  function Decide(e: Evidence): Decision {
    var perf := e.Current();
    var lower := (l: ExpressionLevel) => Rank(l) < Rank(e.current);
    var twoLower := LastTwo(e.predictions, lower);
    var hasLower := (exists l | l in e.predictions :: lower(l)) || e.lowerRules > 0;
    var canReachL0 := e.current != L2 || e.lowerRules > 0;
    var lowAccuracy := perf.attempts > 0 && 100 * perf.correct < 70 * perf.attempts && hasLower && canReachL0;
    var consecutive := twoLower && canReachL0;
    var ruleDescent := e.current == L2 && e.lowerRules >= 2;
    if e.current != L0 && (consecutive || lowAccuracy || ruleDescent) then
      Decision(AdjustDown, e.current, Lower(e.current),
               if consecutive then TwoLowerPredictions else if lowAccuracy then LowAccuracy else RepeatedRuleDescent)
    else
      var next := Higher(e.current);
      if && e.current != L4 && e.current != L0
         && e.completedSessions >= 2 && perf.attempts >= 4 && 100 * perf.correct >= 90 * perf.attempts
         && e.validSpeech >= 2 && LastTwo(e.predictions, l => Rank(l) >= Rank(next))
      then Decision(Upgrade, e.current, next, Mastery)
      else if e.completedSessions < 2 || perf.attempts < 4
        then Decision(InsufficientEvidence, e.current, e.current, Insufficient)
      else Decision(Maintain, e.current, e.current, MaintainCurrent)
  }

  predicate OneStep(a: ExpressionLevel, b: ExpressionLevel) {
    Rank(a) == Rank(b) + 1 || Rank(b) == Rank(a) + 1
  }

  /** A recommendation changes the level iff it upgrades or adjusts down, and then by exactly one step in that
      direction. */
  lemma DecisionsMoveOneStep(e: Evidence)
    ensures var d := Decide(e);
            && d.current == e.current
            && (d.action == Upgrade ==> Rank(d.recommended) == Rank(d.current) + 1)
            && (d.action == AdjustDown ==> Rank(d.current) == Rank(d.recommended) + 1)
            && (d.action in {Maintain, InsufficientEvidence} <==> d.recommended == d.current)
  {}

  /** The same evidence with at least as many correct answers and predictions at least as high. */
  ghost predicate AtLeastAsGood(e: Evidence, f: Evidence) {
    && f.current == e.current && f.validSpeech == e.validSpeech && f.lowerRules == e.lowerRules
    && f.completedSessions == e.completedSessions
    && f.Current().attempts == e.Current().attempts && f.Current().correct >= e.Current().correct
    && |f.predictions| == |e.predictions|
    && forall i :: 0 <= i < |e.predictions| ==> Rank(f.predictions[i]) >= Rank(e.predictions[i])
  }

  /** Better results never turn another outcome into a descent, nor an upgrade into anything else. */
  lemma BetterResultsNeverHurt(e: Evidence, f: Evidence)
    requires AtLeastAsGood(e, f)
    ensures Decide(f).action == AdjustDown ==> Decide(e).action == AdjustDown
    ensures Decide(e).action == Upgrade ==> Decide(f).action == Upgrade
  {
    if l :| l in f.predictions && Rank(l) < Rank(f.current) {
      var i :| 0 <= i < |f.predictions| && f.predictions[i] == l;
      assert e.predictions[i] in e.predictions && Rank(e.predictions[i]) < Rank(e.current);
    }
  }

  /** L2 leads down to joint work only with rule evidence; L0 is never left by a recommendation. */
  lemma JointWorkNeedsRuleEvidence(e: Evidence)
    ensures Decide(e).recommended == L0 && e.current != L0 ==> e.current == L2 && e.lowerRules > 0
    ensures e.current == L0 ==> Decide(e).recommended == L0
  {}
}
