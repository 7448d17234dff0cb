# Verified model of the Mormi tutoring engine

Mormi is a tutoring product in which a child teaches a character. Two language models take part, one to understand a
turn and one to speak; everything that decides state is deterministic code around them. This project models that code
and proves what it guarantees whatever the models, the child, the clocks and the schedulers do. The models are
arbitrary oracles: their answers are inputs of the functions and methods here.

## What is modelled

- **One turn.** Claims with literal evidence (`Evidence.dfy`) cross a guard, survive a two-attempt repair
  (`Understanding.dfy`) and are folded into a monotone reasoning ledger (`Ledger.dfy`, `LedgerOperations.dfy`). A ladder
  of expression levels L4, L3, L2, L0 and hints H0 to H3 reacts (`Ladder.dfy`), the next question is chosen
  (`Questions.dfy`), choices and joint actions are interpreted, and the response plan and what the speaker is told are
  compiled and validated (`Turns.dfy`).
- **Whole conversations.** The home engine with one task (`HomeEngine.dfy`, `HomeRuns.dfy`, `Lessons.dfy`,
  `HomeStuck.dfy`, `HomeSpeech.dfy`) and the life engine with a chain of tasks, variants chosen from earlier answers and
  facts reported at the end (`LifeContent.dfy`, `LifeEngine.dfy`, `LifeTurns.dfy`, `LifeRuns.dfy`, `LifeCredit.dfy`,
  `LifeProgress.dfy`). Which values a conversation can write, which variants it can meet and when what it stored can be
  loaded again is characterised in both directions (`WritableValues.dfy`, `LifeWrites.dfy`, `LifeScripts.dfy`,
  `LifeFailures.dfy`, `LifePicks.dfy`, `Reloading.dfy`). Sessions are classes whose methods update fields as the engines
  do; each method is proved equal to a function of the state, and the theorems speak about every run of that function.
- **Protocols.** The generated-copy cache with leases (`CopyCache.dfy`), its concurrent clients (`Resolver.dfy`), and
  the ladder-analysis job queue with its worker, its approvals and the learner records that sessions load and save
  around them (`LadderDecision.dfy`, `JobQueue.dfy`, `JobRuns.dfy`). Each repository call is one atomic step;
  interleavings, clocks, stale or forged leases and faults are arbitrary.
- **Algorithms.** The reasoning-graph cycle check (`Graph.dfy`), the renumbering migration under a live unique
  constraint (`Migration.dfy`), the Sino-Korean numeral parser (`SinoNumber.dfy`), and the park equations with their
  answer choices (`ParkEquation.dfy`).

## What the proofs found

- `Questions.NeverStuckIff`: the engine can always ask its next question exactly when each opening target that occurs
  once has an L3 plan with the same `ask_kind`. The pack validators compare targets by kind and id only, so a pack can
  load and still get stuck; `HomeStuck.DisagreementFailsATurn` shows that every such home pack fails in its first
  question or in its first turn.
- `Turns.PlanValidIff`: with distinct targets the compiled response plan violates its own validator on exactly one kind
  of turn: a new partial method together with a question to Mormi while no help card is open. The partial-progress
  branch of the policy returns before a hint is raised, yet the plan points at the card. In every home pack such a turn
  is rejected wherever no card is open (`HomeStuck.HalfAnswerIsRejected`). Life packs may also repeat an opening
  target, which makes the plan's targets repeat.
- `Turns.SpeechFailsIff`: the plans for the two speakers are built and validated outside any error handling, so a turn
  whose account does not fit them fails, although the child did nothing wrong. It happens when the understanding model
  claims the same thing twice under two claim ids (`HomeSpeech.RepeatedClaimIsRejected`), on the hundred and first social
  turn without progress and on every social turn after it (`HomeSpeech.SocialTurnsRunOut`), when a correct choice shows
  more than eight new note relations (`HomeSpeech.UnansweredPickIsRejected`; a pack may note ten), and when a verified
  fact's label names a number other than the fact's own (`HomeSpeech.OneAnswerSilences`). `Turns.SpeakerPlanValidIff` is
  the exact list. Before joint work the limit on concept failures is never reached (`Ladders.FailuresStayFew`).
- `LifeScripts.MisnamedHelpFails`: the targets of a life task's first help are not checked when it is loaded, and looking
  up their labels fails the turn that asks for help.
- `LifeFailures.SelectorCanFailIff` and `LifeFailures.ProjectionCanFailIff`: a scenario can load whose variant selector
  or completion report fails in some conversation. It does so exactly when a selector reads a fact that is not required
  or does not map a value that can be written, or when the report needs something no task is bound to establish;
  `Examples.UnmappedAnswerFails` and `Examples.UnaskedReportFails` are two such scenarios. Under the opposite conditions
  a turn fails only when it leaves its task open and Mormi cannot answer it (`LifeProgress.LifeTurnSucceedsIff`).
- `LifePicks.PicksShownIff`: life packs may repeat an L2 plan id, and the plan picked from is found by that id. The
  later plan is then shown but never picked from, and its correct option can be refused
  (`LifePicks.RepeatedIdRefuses`).
- `JobRuns.StaleSaveSplitsChanges`: after a turn with a note the session service loads the learner's record and saves
  it in a second transaction. A save that was loaded before an approval and lands after it writes the old level back,
  and the same step can be approved twice. `JobRuns.ApprovalsDecideIff` and `JobRuns.ChangesJoinIff` say exactly when
  the approved levels are lost and when two changes join up; `JobRuns.ChangesJoinUnlessUndone` says it by order alone,
  for a skill nothing touched since a time after which every save in between was loaded.
- `HomeRuns.RecordedHintIff`: a home conversation that starts at joint work shows H3 but records H0 as its maximum hint,
  which the learner's record then counts as independence.
- `EvidenceGuard.NoLiteralMatchIff`: the check on the whole normalised utterance, made before slices are tried, can lose
  evidence when a letter carries more accents than the span (`EvidenceGuard.WholeCheckLosesEvidence`).
- `ParkEquation.PrintedTasksWorkIff`: an equation that parses need not give a task. A ticket product with one person, or
  a factor of zero, and a break-even of no ride leave fewer than two distractors, and the builder raises.
- The cache's `complete` does not look at the lease's expiry, only at status, attempt and token. The theorems about
  leases hold for that code: an expired lease that nobody took over may still complete.

`Examples.dfy` builds a smallest home pack, a home run that ends TAUGHT, a home run that ends SUPPORTED, a sealed
scenario of two tasks with a conversation to its end, the two failing scenarios named above, and a home pack with nine
note relations whose first correct choice is rejected (`Examples.CrowdedPickFails`), so the assumptions of the theorems
about runs can be met.

Some notions used below. Mormi *cannot answer* a turn in the cases of `Turns.SpeechFailsIff`. A label is *plain* when it
names no number but its fact's own. A *bare answer* verifies facts only and asks nothing. A turn is *counted* unless it
is a classifier fallback, an empty recognition result, or a social, bridge or safety turn without progress. A value *can be written* for a fact when it is the fact's own, its
pinned joint value, or that of an enabled correct choice of a plan that can be picked from while the fact is open. A
task *can be met* in its default variant, or in one its selector finds for a value that can be written in an earlier
task that can be met. A life scenario is *sealed* when in every task that can be met the selectors' facts are required
and all values that can be written for them are mapped, the reported facts are required or visible and the reported
relations required, and every opening question names each target once, the way its L3 plan asks it.

## Model

| member | source | states |
|---|---|---|
| Ledgers.ClaimFoldAppend | src/mormi_api/dialogue_v2_ledger.py:580-740 | Applying admitted claims `a` and then `b` gives the same ledger and reports as applying `a + b` at once |
| Ledgers.ClaimFoldGrows | src/mormi_api/dialogue_v2_ledger.py:536-766 | Whatever claims a turn brings, the ledger only grows: values stay as first written, evidence lists are extended at the end, evidence ids stay unique, and the reported new ids are exactly the keys added, once each |
| Ledgers.ReplayIsNoOp | src/mormi_api/dialogue_v2_ledger.py:509-766 | Replaying a turn's claims on the ledger they produced changes no entry and reports no progress |
| Ledgers.FactVerifiedIff | src/mormi_api/dialogue_v2_ledger.py:580-619 | A fact is verified afterwards iff it was before or some claim about it is correct; a new fact carries the reviewed value, an old one keeps its value |
| Ledgers.RelationVerifiedIff | src/mormi_api/dialogue_v2_ledger.py:621-702 | A relation is verified afterwards iff it was before or some claim about it is correct or sufficient |
| Ledgers.PartialRecordedIff | src/mormi_api/dialogue_v2_ledger.py:621-663 | A partial attempt is recorded iff the relation was not verified at the moment that claim was read, including by an earlier claim of the same turn |
| Ledgers.ClaimIsRecorded | src/mormi_api/dialogue_v2_ledger.py:580-740 | Among claims with distinct ids each one that takes effect is recorded under the id of its own evidence, whatever claims come before and after it |
| Ledgers.CompleteIffRequiredVerified | src/mormi_api/dialogue_v2_ledger.py:469-494 | Completion is reported iff every required fact and relation is verified |
| LedgerOperations.ApplyClaim | src/mormi_api/dialogue_v2_ledger.py:580-740 | The body of the claim loop, updating dictionaries and report lists step by step, computes one step of the fold |
| LedgerOperations.ApplyGuarded | src/mormi_api/dialogue_v2_ledger.py:536-766 | The imperative application of guarded claims, with its checks in order, computes the specified result or the specified error |
| LedgerOperations.ApplyIsSound | src/mormi_api/dialogue_v2_ledger.py:536-766 | On a well-formed ledger a successful application keeps it well-formed and bound, grows it exactly as reported, and reports completion iff the required targets are covered and `became_true` iff they were not covered before |
| LedgerOperations.RecordFacts | src/mormi_api/dialogue_v2_ledger.py:855-886 | The loop over structured fact values records each value once and reports it once |
| LedgerOperations.RecordRelations | src/mormi_api/dialogue_v2_ledger.py:888-916 | The loop over structured relation ids records each relation once and reports it once |
| LedgerOperations.ApplyStructuredProgress | src/mormi_api/dialogue_v2_ledger.py:796-939 | The imperative structured update, with its checks in order, computes the specified result or error |
| LedgerOperations.ApplyStructuredIsSound | src/mormi_api/dialogue_v2_ledger.py:796-939 | The same guarantees as for guarded claims hold for structured progress |
| LedgerOperations.FactFoldVerifies | src/mormi_api/dialogue_v2_ledger.py:855-886 | Exactly the listed facts are added, each new one with a value from the list, and no value already there changes |
| LedgerOperations.ReviewedProgressApplies | src/mormi_api/dialogue_v2_ledger.py:796-939 | Reviewed values and known relations on a bound ledger are always accepted and verify exactly the named targets, without partial attempts |
| LedgerOperations.ApplyIff | src/mormi_api/dialogue_v2_ledger.py:536-766 | Guarded claims about the graph apply to a usable ledger iff the auxiliary evidence stays within its limit of 200; nothing else can go wrong |
| LedgerOperations.ApplyInTwoSteps | src/mormi_api/dialogue_v2_ledger.py:536-766 | One call with two batches of claims succeeds iff no claim id occurs in both and the two calls in a row succeed, and then leaves the same ledger and completion |
| LedgerOperations.CompletionFiresOnce | src/mormi_api/dialogue_v2_ledger.py:751-766 | In the life of one ledger the completion event fires at most once |
| LedgerOperations.ApplyIsEvidenced | src/mormi_api/dialogue_v2_ledger.py:664-702 | Every piece of evidence behind a relation newly verified by claims is reported as new evidence of the turn |
| LedgerOperations.ApplyStructuredIsEvidenced | src/mormi_api/dialogue_v2_ledger.py:888-916 | The same for relations verified by structured progress |
| Ladders.PolicyIsMonotone | src/mormi_api/dialogue_v2_runtime.py:1394-1505 | Within a task, whatever the turn: H3 holds iff L0 holds, the hint never falls, the expression level never rises, L0 is never left, the pending clarification stays 0 or 1 |
| Ladders.StuckTurnSpendsSupport | src/mormi_api/dialogue_v2_runtime.py:1394-1505 | Before L0 a counted turn without progress strictly uses up support steps or the one clarification |
| Ladders.AnyTurnKeepsSupport | src/mormi_api/dialogue_v2_runtime.py:1394-1505 | No turn gives support steps back, and an uncounted turn changes nothing but the unrelated counter |
| HomeEngine.Session.RaiseHintLevel | src/mormi_api/dialogue_v2_runtime.py:1481-1497 | The in-place hint step, H2 leading to joint work at L0 with H3, computes the specified ladder |
| HomeEngine.Session.LowerExpressionLevel | src/mormi_api/dialogue_v2_runtime.py:1500-1505 | The in-place expression step, L2 leading to L0 with H3, computes the specified ladder |
| HomeEngine.Session.ApplyLadderPolicy | src/mormi_api/dialogue_v2_runtime.py:1394-1479 | The branch-by-branch policy on session fields computes the specified ladder and touches no other field |
| Questions.ActiveTargetsRemain | src/mormi_api/dialogue_v2_runtime.py:1779-1820 | The active targets are required and unverified, at least one while something is missing, exactly one at L3 and L2, all missing ones at L4 and L0 |
| Questions.AskedTargetsRemain | src/mormi_api/dialogue_v2_runtime.py:1650-1759 | A question asks a non-empty set of still unverified required targets: exactly one at L3 and L2, all of them at L4 and L0 |
| Questions.LowerLevelsAlwaysAsk | src/mormi_api/dialogue_v2_runtime.py:1650-1759 | At L3, L2 and L0 a question is always found while something is missing |
| Questions.DisagreementSticks | src/mormi_api/dialogue_v2_runtime.py:1733-1745 | When some opening target has no L3 plan with the same ask kind there is a usable, incomplete ledger on which L4 finds no question |
| Questions.NeverStuckIff | src/mormi_api/dialogue_v2_runtime.py:1650-1854 | The engine always finds its next question, for every level and every usable incomplete ledger, if and only if each once-asked opening target has an L3 plan asking it the same way; the validators compare kind and id only |
| Json.SameJsonIsEquality | src/mormi_api/dialogue_v2_runtime.py:290-304 | The strict comparison holds iff the two JSON values are identical, types included: `True`, `1` and `1.0` stay different |
| Turns.InterpretIsSound | src/mormi_api/dialogue_v2_runtime.py:434-478 | Speech, silence, a choice or a joint action: the ledger outcome of an interpreted turn is always sound for the ledger it started from |
| Turns.InterpretIsEvidenced | src/mormi_api/dialogue_v2_runtime.py:434-478 | However a turn is answered, the evidence behind every newly verified relation is reported |
| Turns.PlanValidIff | src/mormi_api/dialogue_v2_speaker.py:308-346 | The response plan compiled after the policy meets its own validator iff its targets are distinct and the turn is not a new partial method together with a question to Mormi while no card is open |
| Turns.SpeakerPlanValidIff | src/mormi_api/dialogue_v2_speaker.py:195-478 | The plan compiled for the main speaker meets all its validators iff: labels of the verified facts name no number but the fact's own (the first help's own target excepted), at most 8 facts and 8 relations were tried and as many are new, at most 100 concept failures are counted, and at most 20 pieces of evidence are given, none twice; every other check always holds |
| Turns.EvidenceRepeatsIff | src/mormi_api/dialogue_v2_runtime.py:2737-2753 | The speaker is given the same evidence twice iff two claims of the turn take effect and say the same of the same target in the same place; claim ids alone must be distinct |
| Turns.SpeechFailsIff | src/mormi_api/dialogue_v2_runtime.py:521-684 | Speaking on an open turn, from the label lookup through the response plan to the bridge or speaker plan, fails iff the turn asks Mormi for an answer along with a new half method while no card is open, is bridged after a hundred social turns, does not fit the main speaker's plan, or is a first help about something the pack does not know; reviewed, stable, safety and fallback turns and bare answers need no plan |
| HomeEngine.HomeEffectIsValid | src/mormi_api/dialogue_v2_runtime.py:1228-1262 | A reviewed home choice meets the shared choice contract: it verifies its target with an accepted value, or its method together with the note relations |
| HomeEngine.Session.TrackNoteProvenance | src/mormi_api/dialogue_v2_runtime.py:1508-1556 | The loop over newly verified relations leaves exactly the specified child and supported sets |
| HomeEngine.Session.ApplyExecution | src/mormi_api/dialogue_v2_runtime.py:480-494 | Policy, ledger and provenance in order give the specified state |
| HomeEngine.Session.CompleteState | src/mormi_api/dialogue_v2_runtime.py:1559-1576 | Outcome, reward and direct flag are set as specified from provenance and joint use |
| HomeEngine.Session.BindQuestion | src/mormi_api/dialogue_v2_runtime.py:1650-1759 | Asking binds the subgoal, and H3 at L0, and nothing else; it fails exactly when no question is found |
| HomeEngine.Session.ConcludeExecution | src/mormi_api/dialogue_v2_runtime.py:480-684 | After interpretation the session ends in the specified state or reports the specified error |
| HomeEngine.Session.RunTurn | src/mormi_api/dialogue_v2_runtime.py:410-478 | A turn runs on a copy: it yields a fresh session in the specified next state or the specified error, and the caller's session is unchanged |
| HomeRuns.TurnKeepsInv | src/mormi_api/dialogue_v2_runtime.py:410-555 | Every successful turn of an open home conversation keeps the run invariant: usable ledger, ladder shape, disjoint provenance, completion iff covered, question bound |
| HomeRuns.RunKeepsInv | src/mormi_api/dialogue_v2_runtime.py:350-555 | Every state of every run from a good start keeps the invariant |
| HomeRuns.RecordedHintIff | src/mormi_api/dialogue_v2_runtime.py:1481-1505 | In every state of every home run the recorded maximum hint is the highest hint shown iff the run does not start at joint work; that start shows H3 and records H0 |
| HomeRuns.TaskTurnSpends | src/mormi_api/dialogue_v2_runtime.py:1394-1505 | Before joint work no turn raises the potential of ledger and ladder, and every counted turn lowers it |
| HomeRuns.CountedTurnsAreBounded | src/mormi_api/dialogue_v2_runtime.py:1394-1505 | A run that never reaches L0 has at most `2 * (facts + 2 * relations + 6) + 1` counted turns |
| HomeRuns.ConversationsTerminate | src/mormi_api/dialogue_v2_runtime.py:1394-1505 | A run with more counted turns than that has come to joint work at L0 with H3 |
| HomeRuns.CreditIsExact | src/mormi_api/dialogue_v2_runtime.py:1508-1556 | At every point of a run the child is credited with exactly the note relations first verified by free text in a turn begun at H0 or H1 |
| HomeRuns.TaughtIff | src/mormi_api/dialogue_v2_runtime.py:1559-1576 | A finished run is TAUGHT, and rewarded, iff every note relation was so taught and the finishing turn was not the joint action |
| HomeRuns.JointActionCompletes | src/mormi_api/dialogue_v2_runtime.py:1288-1350 | At L0 exactly the emitted completion values are accepted, and submitting them finishes the task as SUPPORTED in one turn |
| HomeRuns.JointIsInterpreted | src/mormi_api/dialogue_v2_runtime.py:1288-1350 | For any pack a joint action is interpreted iff its values equal the pinned ones, and its ledger outcome is then complete |
| HomeRuns.ConcludeSucceedsIff | src/mormi_api/dialogue_v2_runtime.py:521-684 | Once interpreted, a turn of a reachable open state succeeds iff it completes the task or Mormi can answer it: not unanswerable, not bridged after a hundred social turns, and within the speaker's limits |
| HomeRuns.TurnSucceedsIff | src/mormi_api/dialogue_v2_runtime.py:521-684 | In a pack whose questions agree no reachable state is stuck for want of a question: an interpreted turn fails exactly when it leaves the task open and Mormi cannot answer it |
| HomeStuck.NeverWithoutQuestion | src/mormi_api/dialogue_v2_runtime.py:1650-1759 | In a pack whose questions agree no turn of a reachable open state ever fails for want of a question |
| HomeStuck.DisagreementFailsATurn | src/mormi_api/dialogue_v2_runtime.py:1733-1745 | Every home pack whose questions disagree fails at once: its first L4 question is missing, or one turn of speech, naming every target but one, leaves the engine without a question |
| HomeStuck.HalfAnswerIsRejected | src/mormi_api/dialogue_v2_runtime.py:1425-1433 | In every home pack, at any point with no card open, half of a method not tried before together with a request for Mormi's answer makes the turn fail: its compiled plan breaks its own validator |
| HomeRuns.CorrectPickAdvances | src/mormi_api/dialogue_v2_runtime.py:1209-1285 | At L2 an enabled correct choice of the plan on screen succeeds iff it is about a fact, finishes the task, or shows a method with at most 8 note relations not verified before while every verified fact has a plain label; it then removes a remaining target and finishes the task or stays at L2 |
| HomeRuns.CorrectChoicesComplete | src/mormi_api/dialogue_v2_runtime.py:1209-1285 | At L2 with `k` targets remaining, `k` correct choices that succeed finish the task |
| HomeRuns.WrongPickTeachesNothing | src/mormi_api/dialogue_v2_runtime.py:1209-1285 | At L2 an incorrect choice succeeds iff every verified fact has a plain label, and then leaves the ledger as it was, counts one concept failure and raises the hint by exactly one |
| HomeSpeech.RepeatedClaimIsRejected | src/mormi_api/dialogue_v2_speaker.py:424-430 | In every home pack, at any open point of any conversation, half of a method not tried before is rejected when it is claimed twice under two claim ids |
| HomeSpeech.SocialTurnIff | src/mormi_api/dialogue_v2_runtime.py:2232-2290 | A bridged turn without progress or request succeeds iff fewer than 100 social turns are counted, and then only counts itself |
| HomeSpeech.SocialTurnsRunOut | src/mormi_api/dialogue_v2_speaker.py:481-495 | From any open state of a conversation whose questions agree there is a run of social turns up to a count of 100, with nothing else verified, at whose end every social turn fails; a failed turn is not stored, so it stays so |
| HomeSpeech.MislabelledFactSilences | src/mormi_api/dialogue_v2_speaker.py:195-218 | Once a fact is verified whose label names another number, every turn put to the main speaker fails unless it finishes the task or is a bare answer |
| HomeSpeech.OneAnswerSilences | src/mormi_api/dialogue_v2_runtime.py:2056-2097 | In every home pack with such a label the fact can be verified by a bare answer, which succeeds while something else stays open, and the next silence then fails |
| HomeSpeech.UnansweredPickIsRejected | src/mormi_api/dialogue_v2_speaker.py:371-394 | A correct choice that leaves the task open is rejected by the speaker's plan when its method shows more than 8 new note relations or a label is not plain |
| EvidenceGuard.LiteralMatchIsLiteral | src/mormi_api/dialogue_v2_evidence.py:135-164 | A match lies inside the utterance, is not empty, and its slice equals the span exactly, or equals it after normalisation when no exact occurrence exists |
| EvidenceGuard.NoLiteralMatchIff | src/mormi_api/dialogue_v2_evidence.py:146-164 | No match is reported iff the span does not occur exactly and either its normal form does not occur in that of the whole utterance or no slice has it |
| EvidenceGuard.WholeCheckLosesEvidence | src/mormi_api/dialogue_v2_evidence.py:153-155 | An utterance whose first slice normalises to the span and for which no match is reported, because the whole utterance normalises to something else |
| EvidenceGuard.LiteralEvidenceMatch | src/mormi_api/dialogue_v2_evidence.py:135-164 | The nested index loop finds the specified first match or none |
| EvidenceGuard.Guard | src/mormi_api/dialogue_v2_evidence.py:187-279 | The strict guard raises iff some claim has a violation, with the violations of all claims in order, and otherwise returns every claim with its match |
| EvidenceGuard.AdmitResponse | src/mormi_api/dialogue_v2_evidence.py:282-384 | Claim-level admission keeps exactly the claims without violation, in order, with their matches, and quarantines the violations of the rest |
| EvidenceGuard.GuardAndAdmissionAgree | src/mormi_api/dialogue_v2_evidence.py:187-384 | The guard raises iff the quarantine is non-empty, with the same list; otherwise both keep all claims with the same matches |
| EvidenceGuard.AdmissionIsGuarded | src/mormi_api/dialogue_v2_evidence.py:282-384 | Admission always hands the ledger one match per kept claim, and only admissible claims |
| Understanding.MergeIsMonotone | src/mormi_api/dialogue_v2_runtime.py:1017-1054 | Merging a repair keeps every claim and match of the first attempt, adds only claims with new ids, and keeps one match per claim |
| Understanding.AttemptContext.Try | src/mormi_api/dialogue_v2_runtime.py:938-1015 | One attempt updates the context's previous admission, call count and result as specified |
| Understanding.RunAttempts | src/mormi_api/dialogue_v2_attempt_graph.py:32-79 | The attempt loop returns what the specification returns and makes one or two model calls, never more |
| Understanding.RepairKeepsAdmitted | src/mormi_api/dialogue_v2_runtime.py:938-1054 | Claims admitted on the first attempt survive the second unchanged |
| Understanding.UnderstoodIsAdmissible | src/mormi_api/dialogue_v2_runtime.py:938-1106 | Every claim that reaches the ledger, on whichever attempt it came, crossed the evidence guard |
| Understanding.RepairVerifiesNoLess | src/mormi_api/dialogue_v2_runtime.py:938-1106 | After a repair the ledger verifies at least what the first attempt alone would have verified; the repaired claims apply iff their auxiliary evidence stays within its limit, and then those of the first attempt apply too |
| Understanding.NoCardNoReference | src/mormi_api/dialogue_v2_evidence.py:167-184 | A UI reference is admitted only when a card was visible before the turn |
| Understanding.EngineSemanticsAreProper | src/mormi_api/dialogue_v2_runtime.py:1056-1141 | What the understanding pass hands to the turn satisfies the properties the plan theorem asks of it |
| CopyCache.ComputeRetryDelay | src/mormi_api/copy_cache.py:514-520 | The doubling loop with early exit computes the capped power-of-two delay |
| CopyCache.RetryDelayIsBounded | src/mormi_api/copy_cache.py:514-520 | Back-off starts at the base, never shrinks, doubles until capped, and never exceeds the maximum |
| CopyCache.Repository.AcquireLease | src/mormi_api/copy_cache.py:338-439 | The acquire transaction, new row or existing one, leaves the specified row and answer |
| CopyCache.Repository.CompleteLease | src/mormi_api/copy_cache.py:441-476 | Completion checks status, attempt and token only, and leaves the specified row or nothing |
| CopyCache.Repository.FailLease | src/mormi_api/copy_cache.py:478-512 | Failing checks the same fence and leaves the row in retry with its back-off, or nothing |
| CopyCache.EveryExecutionIsLawful | src/mormi_api/copy_cache.py:338-512 | Under any interleaving of calls with arbitrary clocks and arbitrary leases the log of grants, completions and failures is lawful and every row is what its last event says |
| CopyCache.GrantsAreNumbered | src/mormi_api/copy_cache.py:381-439 | Each (key, attempt) is leased at most once, in rising order |
| CopyCache.OnlyLatestLeaseEnds | src/mormi_api/copy_cache.py:441-512 | A lease can complete or fail a row only while no later one was granted |
| CopyCache.OneOutcomePerLease | src/mormi_api/copy_cache.py:441-512 | A lease ends at most once, and later outcomes belong to later leases |
| CopyCache.CompletionIsLast | src/mormi_api/copy_cache.py:441-476 | After a completion nothing happens to its key any more |
| CopyCache.LeasesDoNotOverlap | src/mormi_api/copy_cache.py:381-512 | Lease `k + 1` starts no earlier than the expiry of lease `k`, unless the holder of `k` failed it, and then no earlier than that failure's back-off |
| CopyCache.ReadyIsAbsorbing | src/mormi_api/copy_cache.py:441-476 | A ready row and its artifact never change, whatever is called later |
| Resolver.EverySystemKeepsInv | src/mormi_api/dialogue_v2_copy.py:811-1086 | Any number of concurrent resolutions with faults before or after each repository call keep the shared rows and every answer consistent |
| Resolver.ReturnedOutputsPass | src/mormi_api/dialogue_v2_copy.py:811-1086 | Whatever a resolution returns has passed its output firewall |
| Resolver.DurableAnswersAgree | src/mormi_api/dialogue_v2_copy.py:811-1086 | Two resolutions of one plan reporting hit, generated or seeded return the same text: the durable row's, stripped |
| Resolver.AnswersStay | src/mormi_api/dialogue_v2_copy.py:811-1086 | An answer once given is never revised by later steps |
| JobQueue.Store.ClaimPending | src/mormi_api/ladder_analysis_repository.py:164-188 | Claiming moves exactly the selected jobs to running, each with the next attempt and a fresh lease, and hands out claims that own them |
| JobQueue.Store.Complete | src/mormi_api/ladder_analysis_repository.py:190-210 | Completion succeeds iff the job is running under exactly this attempt, and then changes that record only |
| JobQueue.Store.Fail | src/mormi_api/ladder_analysis_repository.py:212-234 | Failure succeeds under the same fence and stores a reviewed error code |
| JobQueue.Store.RequeueModelFailures | src/mormi_api/ladder_analysis_repository.py:249-272 | Exactly the failed jobs with a requeueable model error become pending again, with their attempts kept |
| JobQueue.Store.Approve | src/mormi_api/ladder_analysis_repository.py:274-342 | Approval returns the specified verdict, changes one profile level at most, and changes nothing on an error |
| JobQueue.Store.RunOnce | src/mormi_api/ladder_analysis_worker.py:69-116 | One worker cycle ends every claimed job: completed with the decision of its own evidence, or failed with its own code; completed and failed add up to the claimed jobs |
| JobQueue.WorkerDecisionsAreApplicable | src/mormi_api/ladder_analysis_repository.py:291-308 | A recommendation written by the worker is refused as not applicable iff it keeps the level; every upgrade and adjustment passes the one-step check |
| JobRuns.EveryExecutionIsLawful | src/mormi_api/ladder_analysis_repository.py:104-342 | Under any interleaving of workers, operators and saves of learner records, with stale or forged claims and arbitrary clocks, the job log is lawful, the jobs follow it, every approved change starts at the stored level and moves one step, no job makes two, and a save writes back what its load read |
| JobRuns.EachAttemptIsClaimedOnce | src/mormi_api/ladder_analysis_repository.py:164-188 | Each (job, attempt) is handed out at most once |
| JobRuns.OneOutcomePerAttempt | src/mormi_api/ladder_analysis_repository.py:190-272 | An attempt ends at most once; one that failed can never complete later, although a requeue makes the job pending without resetting its attempts |
| JobRuns.OnlyLatestClaimEnds | src/mormi_api/ladder_analysis_repository.py:190-234 | Only the latest claim of a job can end it |
| JobRuns.CompletionIsLast | src/mormi_api/ladder_analysis_repository.py:190-272 | After completion a job is never claimed, requeued or ended again |
| JobRuns.CompletedIsAbsorbing | src/mormi_api/ladder_analysis_repository.py:190-342 | A completed record keeps its decision for good; only its approval may still be set |
| JobRuns.ChangesJoinIff | src/mormi_api/ladder_analysis_repository.py:299-334 | Consecutive approved changes of one learner's skill join iff no save of the record lands between them, or the last one that does was loaded while the level was the one the earlier change led to |
| JobRuns.ChangesJoinUnlessUndone | src/mormi_api/repository.py:293-316 | When nothing touched the skill from time `low` to the earlier change, and every save between the two changes was loaded at or after `low`: they fail to join iff the earlier change was undone by a save whose load preceded it, directly or through a load in between, and the later one then starts where the earlier did. The statement without these hypotheses is `ChangesJoinIff` |
| JobRuns.FreshSavesJoin | src/mormi_api/service.py:506-514 | They join whenever every save between them was loaded after the earlier one |
| JobRuns.ApprovalsDecideIff | src/mormi_api/service.py:506-514 | The stored levels are at all times those the approvals lead to iff no save lands on a learner for whom the approvals since its load have moved a level |
| JobRuns.StaleSaveSplitsChanges | src/mormi_api/service.py:506-514 | An execution in which two jobs, each completed with the decision the worker makes of its evidence, both move the same skill from L2 to L3, one after the other, because a save loaded before the first approval lands between them |
| LadderDecision.DecisionsMoveOneStep | src/mormi_api/ladder_analysis.py:57-135 | A recommendation changes the level iff it upgrades or adjusts down, and then by exactly one step in that direction |
| LadderDecision.BetterResultsNeverHurt | src/mormi_api/ladder_analysis.py:57-135 | More correct answers or higher predictions never turn another outcome into a descent, nor an upgrade into anything else |
| LadderDecision.JointWorkNeedsRuleEvidence | src/mormi_api/ladder_analysis.py:57-135 | A recommendation reaches L0 only from L2 with rule evidence, and never leaves L0 |
| WritableValues.TurnWrites | src/mormi_api/dialogue_v2_life_runtime.py:400-447 | However a turn is answered, a value it writes for a fact is the fact's own, the pinned joint value, or that of an enabled correct choice of a plan that can be picked from while the fact is open |
| WritableValues.ShownBefore | src/mormi_api/dialogue_v2_life_runtime.py:214-259 | The L2 question on screen while a fact is open is one of those that can come before it, decided on the two targets alone |
| LifeScripts.EveryValueIsWritten | src/mormi_api/dialogue_v2_life_runtime.py:400-447 | Every such value is written in some conversation, whatever the labels of the facts: from the start of the task a script of silences, methods taught while no fact is known, bare answers and one pick or joint action finishes it with that value |
| LifeScripts.MisnamedHelpFails | src/mormi_api/dialogue_v2_life_content.py:441-448 | Loading a life task does not check the targets of its first help; where they name something the task does not know, every request for help before any hint fails the turn |
| LifeWrites.RunKeepsWritten | src/mormi_api/dialogue_v2_life_runtime.py:588-667 | In every state of every conversation the tasks reached are in a variant their selector can find, and their ledgers hold only such values |
| LifeFailures.EveryPackIsMet | src/mormi_api/dialogue_v2_life_runtime.py:621-662 | Every variant a selector can find for such a value is entered in some conversation, unless a lookup fails in one |
| LifeFailures.SelectorCanFailIff | src/mormi_api/dialogue_v2_life_runtime.py:621-637 | Some turn of some conversation fails for want of a variant iff some selector reads a fact that is not required, or does not map a value that can be written for it, in a task that can be met; loading checks neither |
| LifeFailures.ProjectionCanFailIff | src/mormi_api/dialogue_v2_life_runtime.py:863-895 | With sealed selectors, some conversation fails at its final report iff it reports a fact that is neither required nor initially visible, or a relation that is not required, in a task that can be met |
| LifeFailures.NothingMissingIffSealed | src/mormi_api/dialogue_v2_life_runtime.py:588-895 | No conversation ever misses a variant or a reported fact iff the scenario is sealed |
| LifeFailures.SealedCanFinish | src/mormi_api/dialogue_v2_life_runtime.py:606-617 | Every sealed scenario has a conversation that reaches its end |
| LifeEngine.SortRelations | src/mormi_api/dialogue_v2_life_runtime.py:532-553 | The loop over note relations credits each one touched this turn to the child or to the support exactly as specified, duplicates in the list included |
| LifeTurns.AbsorbFrame | src/mormi_api/dialogue_v2_life_runtime.py:203-212 | Applying a turn gives the current task the new ledger and provenance and changes variant, ledger and provenance of no other task |
| LifeEngine.LifeSession.TrackNoteProvenance | src/mormi_api/dialogue_v2_life_runtime.py:516-586 | The current task's provenance becomes the specified one; no other task's changes |
| LifeEngine.LifeSession.ChooseVariant | src/mormi_api/dialogue_v2_life_runtime.py:621-637 | The next variant is the default or the one the selector finds in the earlier ledger, and a missing key fails |
| LifeEngine.LifeSession.EnterNextTask | src/mormi_api/dialogue_v2_life_runtime.py:638-662 | Entering a task sets its variant, empties its ledger, resets the ladder and leaves everything else |
| LifeEngine.LifeSession.CompleteState | src/mormi_api/dialogue_v2_life_runtime.py:588-667 | Finishing a task folds its credit into the scenario and ends it or enters the next task as specified |
| LifeEngine.LifeSession.UpdateNote | src/mormi_api/dialogue_v2_life_runtime.py:779-830 | A task's note goes out at most once, when all its relations are verified, attributed to the child iff all were taught and no joint action was used |
| LifeEngine.LifeSession.CompletionFacts | src/mormi_api/dialogue_v2_life_runtime.py:863-895 | The loop fills the report from every projection, or fails exactly where one raises |
| LifeEngine.LifeSession.ConcludeExecution | src/mormi_api/dialogue_v2_life_runtime.py:588-777 | After interpretation the session ends in the specified state or reports the specified error |
| LifeEngine.LifeSession.RunTurn | src/mormi_api/dialogue_v2_life_runtime.py:91-98 | A life turn runs on a copy and yields the specified next state or error |
| LifeTurns.TrackFits | src/mormi_api/dialogue_v2_life_runtime.py:516-586 | Tracking keeps provenance fitting: every verified note relation attributed exactly once, the child's with non-empty, unique ids of evidence in the task's own ledger |
| LifeTurns.TrackCredits | src/mormi_api/dialogue_v2_life_runtime.py:532-553 | The child gains exactly the note relations this turn verified first, when the turn was free text begun at H0 or H1 |
| LifeTurns.ConcludeAdvances | src/mormi_api/dialogue_v2_life_runtime.py:588-777 | Everything a successful turn does, in one statement: to its task, to the credit, to the position, and nothing to any other task |
| LifeRuns.TurnKeepsInv | src/mormi_api/dialogue_v2_life_runtime.py:162-777 | Every successful turn keeps the scenario invariant: finished tasks complete, the open one fitting and asked, later ones untouched |
| LifeRuns.RunKeepsInv | src/mormi_api/dialogue_v2_life_runtime.py:100-160 | Every state of every conversation from its start keeps the invariant |
| LifeRuns.InvIsSnapshotOk | src/mormi_api/dialogue_v2_scenario_snapshot.py:52-103 | A state with the invariant passes the snapshot's own validator: each ledger bound to its active variant, note state within reviewed relations |
| LifeRuns.SnapshotsStayValid | src/mormi_api/dialogue_v2_scenario_snapshot.py:52-103 | After every turn of every conversation the pinned snapshot still passes that validator |
| Reloading.InterpretGrows | src/mormi_api/dialogue_v2_ledger.py:580-766 | However a turn is answered, each entry's evidence list grows by exactly the pieces the turn reports for that entry |
| Reloading.HomeLoadsAgainIff | src/mormi_api/dialogue_v2_ledger.py:234-276 | The state of a home run can be loaded again after `n` turns iff no entry was given more than 100 pieces of evidence in them, a limit no turn checks; a state that cannot be loaded never can be again |
| Reloading.LoadsAgainIff | src/mormi_api/dialogue_v2_ledger.py:234-276 | The same for the ledger of every task of a life run and the turns taken in that task |
| LifeCredit.FinishedTasksAreFrozen | src/mormi_api/dialogue_v2_life_runtime.py:203-212 | The task index never falls, and variant, ledger and provenance of a finished task never change |
| LifeCredit.TurnMoves | src/mormi_api/dialogue_v2_life_runtime.py:606-667 | The index moves, by one, exactly when a task before the last is finished, and the scenario ends exactly when the last one is |
| LifeCredit.CreditIsExact | src/mormi_api/dialogue_v2_life_runtime.py:516-586 | In every state of a run the child is credited with exactly the note relations that a direct turn of that task verified first |
| LifeCredit.FinishingTurnEmits | src/mormi_api/dialogue_v2_life_runtime.py:779-830 | The turn that finishes a task sends its note out iff the task has one and all its relations are verified, as the child's iff all were taught directly and no joint action was used |
| LifeCredit.CreditFolds | src/mormi_api/dialogue_v2_life_runtime.py:588-606 | At every point of a run the scenario's credit is intact iff every finished task was the child's own doing |
| LifeCredit.TaughtIff | src/mormi_api/dialogue_v2_life_runtime.py:606-617 | A finished scenario is TAUGHT, and rewarded, iff every task was the child's own doing: all its note relations taught directly, or free text at the finish where there is no note, and never by the joint action |
| LifeProgress.OpenTurnSucceeds | src/mormi_api/dialogue_v2_life_runtime.py:669-693 | In any scenario whose questions can be put, sealed or not, a turn that leaves its task open succeeds iff Mormi can answer it; life questions with a copy slot always have reviewed copy |
| LifeProgress.LifeTurnSucceedsIff | src/mormi_api/dialogue_v2_life_runtime.py:287-398 | In a scenario whose selectors, projections and questions are sealed an interpreted turn fails exactly when it leaves its task open and Mormi cannot answer it: no question, variant or reported fact is ever missing |
| LifeProgress.JointActionFinishesTask | src/mormi_api/dialogue_v2_life_runtime.py:299-326 | At L0 exactly the pinned completion values are accepted, and they finish the task |
| LifeProgress.KeptTurnsAreBounded | src/mormi_api/dialogue_v2_life_runtime.py:484-493 | Every task of every life run keeps the child from its joint work for at most `2 * (facts + 2 * relations + 6) + 1` counted turns of its own, whatever happened in the tasks before it |
| LifeProgress.ConversationsTerminate | src/mormi_api/dialogue_v2_life_runtime.py:484-493 | A task in which more counted turns were taken than that has come to joint work at L0 with H3 |
| LifePicks.PicksShownIff | src/mormi_api/dialogue_v2_life_runtime.py:253-349 | At L2 every pick in a task is taken from the plan on screen, in all its conversations, iff the plan ids of the task do not repeat; loading does not check that |
| LifePicks.RepeatedIdRefuses | src/mormi_api/dialogue_v2_life_runtime.py:408-418 | Where an earlier plan has the id of a later one and not its correct option, a conversation shows the later plan and refuses that option |
| LifePicks.ChoiceIsAnsweredIff | src/mormi_api/dialogue_v2_life_content.py:237-258 | A correct life choice that leaves its task open can be answered iff it shows no relation not verified before, or the labels of all facts then verified are plain; its at most 8 facts and 8 relations never exceed the limits |
| LifePicks.CorrectPickAdvances | src/mormi_api/dialogue_v2_life_runtime.py:400-447 | A correct pick from the plan on screen is always interpreted and verifies a missing target; while something is missing it succeeds iff it can be answered, and the task stays at L2 |
| LifePicks.CorrectChoicesComplete | src/mormi_api/dialogue_v2_life_runtime.py:400-447 | With `k` targets missing at L2 in a task whose plan ids do not repeat, `k` correct picks that succeed finish it |
| ReasoningGraph.CycleCheck.Visit | src/mormi_api/dialogue_v2_content.py:452-464 | The recursive visit terminates on every graph; it raises only when a cycle exists, and otherwise extends a dependency order by everything below the fact |
| ReasoningGraph.CycleCheck.VisitAll | src/mormi_api/dialogue_v2_content.py:466-468 | The check accepts iff the dependency graph has no cycle, and acceptance yields a topological order of all facts |
| ReasoningGraph.BuildDependencies | src/mormi_api/dialogue_v2_content.py:448-450 | The loop over relations gives each fact exactly the inputs of every relation producing it |
| ReasoningGraph.Validate | src/mormi_api/dialogue_v2_content.py:405-468 | A graph is accepted iff ids are unique, references and completion lists agree, and no fact depends on itself; it is refused as cyclic iff only the last fails |
| ReasoningGraph.OrderedIsAcyclic | src/mormi_api/dialogue_v2_content.py:446-468 | A dependency graph that can be put in order has no cycle |
| Migration.Assign | alembic/versions/20260826_06_contract_conversation_scenario_identity.py:78-89 | The loop with one dictionary of ranks gives each row its rank in its visit and a state that agrees with it |
| Migration.RanksFill | alembic/versions/20260826_06_contract_conversation_scenario_identity.py:78-89 | The ranks of a visit are exactly 1 to the number of its rows |
| Migration.StepsStayLive | alembic/versions/20260826_06_contract_conversation_scenario_identity.py:94-108 | With rounds of at least 1 to start from, the table after any number of steps of either phase satisfies the live five-column constraint |
| Migration.Table.Update | alembic/versions/20260826_06_contract_conversation_scenario_identity.py:97-108 | One update is refused exactly when it would break the live constraint |
| Migration.Table.Downgrade | alembic/versions/20260826_06_contract_conversation_scenario_identity.py:42-113 | Every single update of both phases succeeds; at the end (learner, session, round) is unique, state and column agree, and rows without a session are untouched |
| Migration.FinishedIsUnique | alembic/versions/20260826_06_contract_conversation_scenario_identity.py:109-113 | After both phases the restored constraint holds |
| Migration.EarlierStaysFirst | alembic/versions/20260826_06_contract_conversation_scenario_identity.py:55-76 | Within a visit an earlier conversation keeps a smaller round |
| SinoNumber.Parse | src/mormi_api/dialogue_v2_speaker.py:645-662 | The loop over total, section and pending digit computes the number the word reads as |
| SinoNumber.NumeralsRoundTrip | src/mormi_api/dialogue_v2_speaker.py:645-662 | Every standard numeral of every number below 100,000,000, with or without the optional 일, is read as its number |
| SinoNumber.NumberIffKnown | src/mormi_api/dialogue_v2_speaker.py:645-662 | A word has a number iff it consists of numeral characters |
| ParkEquation.PrintedEquationParses | src/mormi_api/content.py:3553-3580 | A printed equation parses back to itself iff it is arithmetically true, and is refused otherwise |
| ParkEquation.ProductsAndQuotientsRoundTrip | src/mormi_api/content.py:2941-2992 | For all naturals the printed product and exact quotient parse back to the same operands, operation and result |
| ParkEquation.SpacedEquation | src/mormi_api/content.py:3550-3574 | Spaces around the fields and commas inside them never change what an equation parses to |
| ParkEquation.AnswerChoicesIff | src/mormi_api/content.py:3174-3305 | With the distractors each stage passes, choices can be built iff: ticket, price and total are positive and differ; sharing, always; break-even, the answer is at least 1 |
| ParkEquation.TransferWorksIff | src/mormi_api/content.py:3585-3705 | A transfer task can be built from an equation iff it parses, has the operation of its stage, and allows choices as above |
| ParkEquation.PrintedTasksWorkIff | src/mormi_api/content.py:3585-3705 | For all naturals: a printed product gives a ticket task iff there is a price and more than one person; a printed exact quotient always gives a sharing task, and a break-even task iff it is at least 1 |
| ParkEquation.TransferChoicesAreGood | src/mormi_api/content.py:3103-3128 | A transfer task that is built offers three distinct ascending answers, each with its own effect, exactly one of them the result of its equation; the break-even stage likewise offers the first ride after it |

## Left out

- Language-model calls, prompts, token budgets, timeouts, tracing and the graph runtime: the models' answers are inputs, and only the fixed order of the turn's nodes is kept.
- SHA-256 digests and random tokens: evidence ids, cache keys and content hashes are the data they digest, so they are injective by construction; lease tokens are arbitrary inputs.
- Ledgers.ReplayIsNoOp: about the claims of one turn under one turn id; the service's own duplicate-response check is not part of this model.
- EvidenceGuard.LiteralMatchIsLiteral: Unicode normalisation is a parameter `nfc`, and the bare-number test is a parameter `bare`.
- Note texts, help-card bodies, visuals, moods, copy fallbacks and legacy slot mirrors: they decide no pedagogical state. Of stable copy only whether it is used is modelled; a copy resolver that raises is an I/O fault.
- Turns.PlanValidIff: the plan keeps the fields its validator reads; the private aliases of targets and ids passed to the speaker, which rename the members of one list one to one, are not modelled.
- Turns.SpeakerPlanValidIff: whether a label names another number is a mark on the fact (`plainLabel`), since the patterns that find numerals in Korean text are not modelled apart from `SinoNumber`. Lengths and patterns of texts and ids, which pack loading bounds more tightly, are left out.
- Turns.SpeechFailsIff: the text the speaker returns, and the line count of the composed turn, are not modelled; nor is a failure while the request to the understanding model is built, which comes before a turn is interpreted.
- The question override on an initial-help turn is modelled for speech; question properties are about the ordinary question.
- HomeEngine.Session.TrackNoteProvenance: the supported list and the evidence dictionary are sets here; their order and the constant marker are not modelled.
- Reloading.LoadsAgainIff: says which stored ledgers a next turn can load; runs are sequences of turns that succeed once loaded, and do not stop at a ledger that cannot be.
- The home pack validator beyond what the engine relies on: arithmetic of single relations, rubric texts and help-card reveals. `LifeContent.LifeValid` and `HomeEngine.HomeValid` list what is kept.
- ReasoningGraph.Validate: the arithmetic and rubric checks of single relations are not modelled.
- LadderDecision.BetterResultsNeverHurt: accuracies are exact fractions, so the rounding of a float quotient at 0.7 and 0.9 is not modelled.
- JobQueue.Store.RunOnce: one cycle without other workers; stored performance that its own validator would reject, which aborts the source's cycle, is not modelled. Interleavings of single transactions are covered in `JobRuns`.
- JobRuns.EveryExecutionIsLawful: of a learner's record only the stable levels are kept; streaks and mastery are not. Loads and saves of one session are matched by a session number, and readers that never save are not modelled.
- JobQueue.Store.ClaimPending: the order and limit of the selection are the caller's `ids`; row locking is atomicity.
- Resolver.ReturnedOutputsPass: the firewall is one predicate, stable under trimming, and a faulting repository call either has taken effect or not; the prewarm loop is not modelled.
- CopyCache.Repository.AcquireLease: the insert race of two first calls is the ordinary order of two steps.
- LifeFailures.SelectorCanFailIff: for scenarios whose questions can always be put; in the others a conversation may fail for want of a question before a lookup is reached.
- LifeEngine.LifeSession.ChooseVariant: the text of a number used as selector key is a parameter `show`.
- Migration.Table.Downgrade: the ordered selection is an input that lists every row with a session once; dropping and creating constraints is not modelled. Rounds of at least 1 are demanded because the schema demands them.
- ParkEquation.TransferWorksIff: of a park task only the equation and the number choices are modelled; strategy choices, texts and the content checks on a context are not.
- ParkEquation.PrintedEquationParses: digits are ASCII and blanks are space, tab and line breaks, while the source's pattern also takes other Unicode digits and blanks.
- Catalogue data, audit and training scripts, other migrations, the canary router, the legacy engine with L1, and wrong-guess entries.

Run `dafny verify dfyconfig.toml` to check the whole project.
