# Gambling experiment: the dice-race engine, the game session and the trial log

This project is a Dafny model of the core of a browser experiment on gambling
behaviour. In each trial a participant races the house in sums of dice over a
fixed number of stages. At every stage the participant first makes a decision
about the bet: retract a step, hold, or add a step. They then report how
likely they think a win is. After that both dice are rolled. At the end of the
trial every reported belief except the last stage's is scored against the
outcome with the quadratic (Brier) rule; the last stage's snapshot is relabelled
"N/A" before scoring. The final payment rewards wealth and accuracy together.

As written, the scoring calls a Brier-score function that the math module does
not define, so resolution throws at the first scored belief (see "## Findings").
The session model (`Game.ResolveTrial`, and through it `AcknowledgeInfo`,
`Step` and `Run`) uses the corrected call, and so does everything proved about
sessions after a trial resolves: `GameInvariant.LoggedSteps`,
`GameInvariant.ExportNeverThrows` and the resolving scenarios in
`GameScenarios`. `Game.ResolveTrialAsWritten` models the code as written.

The model has three parts.

- **The win/loss engine.** This is `DiceMath` (js/math.js), checked against a
  counting model in `RollCount`. `convolve` is the full discrete convolution.
  `calculate_probabilities` builds the distribution of the sum of the remaining
  fair dice. It then adds the joint mass of every pair of future sums to win
  (the player strictly ahead) or to loss (everything else, ties included).
  `calculate_entropy` is the binary Shannon entropy.
  - Probabilities are exact `real`s, so the engine's claims are theorems:
    - each distribution sums to 1;
    - win + loss = 1;
    - with no stage left, the current totals decide;
    - `win` is exactly the fraction of the `sides^(2r)` equally likely pairs of
      roll sequences that the player wins.
  - The convolution and the race are also written as the source's loops
    (`Convolve`, `BuildFutureDist`, `RaceRow`, `Race`, `CalculateProbabilities`).
    Their loop invariants tie them to the recursive definitions.
- **The game session.** This is `Game` (js/game.js), one pure transition per
  entry point of the `GameSession` class. Only the effective methods are
  modelled: in a class body a later method of the same name replaces the
  earlier one, so the live code is js/game.js:328-530.
  - The dice rolls are parameters.
  - The 100 ms timer in `startTrial` is a separate transition, `BeginFirstStage`.
  - The global logger is carried in the session as `log`.
  - `GameInvariant` states what holds in every session the interface can drive,
    and proves that each entry point preserves it. It also proves what follows
    from it for scoring, payment and export.
  - `GameScenarios` plays concrete sessions through the transitions.
- **The trial log.** This is `TrialLog` (js/logger.js).
  - `logTrial` is an append.
  - `exportToCSV` flattens the log into one row per snapshot, in log order and
    history order. The header is the 23 column names. Each cell is encoded and
    the cells are comma-joined.
  - A reader who splits the text at newlines and then at commas gets back the
    header and every row's cells.

`Sums` holds the sum helpers. `Records` holds the shared record types.

## Model

| member | source | states |
|---|---|---|
| DiceMath.Convolve | js/math.js:13-23 | the result has n + m − 1 entries, and entry k is the sum of vec1[i]·vec2[k − i] over every i that pairs with an index of vec2 |
| DiceMath.ConvSum | js/math.js:13-23 | convolving with a distribution keeps the total mass |
| DiceMath.FutureDistIsDistribution | js/math.js:44-57 | for r ≥ 1, the future-sum distribution has sides·r − r + 1 entries, all non-negative, summing to 1 |
| DiceMath.BuildFutureDist | js/math.js:44-57 | one die convolved with itself r − 1 times is the future-sum distribution of r dice |
| DiceMath.RaceRow | js/math.js:68-86 | the inner loop adds to win exactly the mass of the house indices the player strictly beats, and adds the rest to loss |
| DiceMath.Race | js/math.js:59-87 | the double loop adds, over every (player, house) index pair, the joint mass to win when the player's final total is strictly greater, and to loss otherwise |
| DiceMath.CalculateProbabilities | js/math.js:33-93 | the loop-based computation equals the recursive definition, and win + loss = 1 |
| DiceMath.ProbabilitiesSumToOne | js/math.js:59-92 | every future pair goes to exactly one of win and loss: win + loss = 1, and both lie in [0, 1] |
| DiceMath.NoStageLeft | js/math.js:35-42 | with no stage remaining the result is exactly {1, 0} when the player is ahead, and exactly {0, 1} otherwise, ties included |
| DiceMath.SwapIsNotSymmetricOnTies | js/math.js:35-42 | swapping player and house does not swap win and loss: 7 against 7 with no stage left gives win ≠ loss, because a tie goes to loss |
| DiceMath.WinMonotone | js/math.js:68-87 | raising the player's current total never lowers the win probability |
| DiceMath.Entropy | js/math.js:101-110 | a zero probability contributes nothing, so the entropy is the other term alone, and log2 is applied only to positive arguments |
| DiceMath.EntropySymmetric | js/math.js:101-110 | the entropy does not depend on which outcome is called the win |
| DiceMath.EntropyOfCertainty | js/math.js:101-110 | a certain outcome has entropy 0 |
| DiceMath.EntropyOfEvenRace | js/math.js:101-110 | an even race has entropy of one bit |
| DiceMath.EntropyNonNegative | js/math.js:101-110 | for probabilities in [0, 1] the entropy is non-negative |
| RollCount.AllRollsLength | js/math.js:25-26 | there are sides^r roll sequences of r dice |
| RollCount.AllRollsAreRolls | js/math.js:25-26 | every enumerated sequence has r faces in 1..sides |
| RollCount.AllRollsComplete | js/math.js:25-26 | every sequence of r faces in 1..sides is enumerated |
| RollCount.AllRollsDistinct | js/math.js:25-26 | no sequence is enumerated twice |
| RollCount.DistributionCountsRolls | js/math.js:44-66 | entry i of the future-sum distribution is the fraction of the sides^r roll sequences whose total is r + i |
| RollCount.WinCountsWinningRolls | js/math.js:25-93 | win is the number of (player, house) roll-sequence pairs that leave the player strictly ahead, divided by sides^(2r), which is the number of all pairs |
| TrialLog.LogTrial | js/logger.js:9-11 | logging appends exactly the given trial at the end and leaves every earlier trial in place |
| TrialLog.TrialRows | js/logger.js:20-61 | a trial gives one row per history step |
| TrialLog.RowsLength | js/logger.js:19-62 | the number of rows is the sum of the history lengths |
| TrialLog.LoggedRowsAppend | js/logger.js:9-62 | logging a trial and then flattening adds exactly that trial's rows, at the end |
| TrialLog.RowAt | js/logger.js:19-62 | step j of trial i is row Offset(i) + j, and it carries the trial's participant and trial id, the step's stage, and the step's win and loss probabilities |
| TrialLog.Cells | js/logger.js:65-68 | every row has exactly one cell per header column |
| TrialLog.HeaderIsPlain | js/logger.js:65-67 | no column name holds a comma or a newline |
| TrialLog.ExportToCsv | js/logger.js:13-69 | an empty log exports nothing; a log whose trials hold no steps fails on the missing first row; otherwise the export has the header and one row per logged step |
| TrialLog.SplitJoin | js/logger.js:66-69 | splitting a comma- or newline-joined line at the separator gives back its parts when no part holds the separator |
| TrialLog.CsvLines | js/logger.js:66-69 | the export text is the header line followed by one line per row, newline-joined |
| TrialLog.CsvReadsBack | js/logger.js:64-69 | when no exported cell holds a comma or a newline, splitting the text at newlines gives the lines back; the first line splits into the header and line k + 1 into row k's encoded cells |
| TrialLog.ExportReadsBack | js/logger.js:64-69 | when no exported cell holds a comma or a newline, a reader of the export sees one line per logged step after the header, and each splits back into that step's encoded cells |
| Game.OrDefault | js/game.js:8-15 | an absent or zero option takes the default; any other value is kept |
| Game.NewSession | js/game.js:7-61 | each setting is the given option, or its default (500, 15, 5, 10, 3, 6, 0) when the option is absent or zero; an empty participant id takes the generated one; the session is at the welcome screen with the starting wealth, stage, bet, sums, rolls, last action and last belief cleared, no answers, no scores, no trial and nothing logged |
| Game.Start | js/game.js:67-70 | start shows the welcome screen and changes nothing else |
| Game.StartQuestionnaire | js/game.js:72-76 | the questionnaire opens at its first item; only the phase and the item index change, so the answers, the total score and the wealth are kept |
| Game.AnswerQuestion | js/game.js:78-91 | the answer is appended, added to the total score, and the item index advances; the instructions follow once the ninth item is answered; nothing outside the questionnaire and the phase changes |
| Game.StartTrial | js/game.js:97-123 | past the last trial the result is exactly the experiment's end, with its final stats and the paid log; otherwise the bet is the ante, wealth drops by the ante with no check, the player's sum is 0, the house's sum is the starting bias, the rolls are empty, the trial has id index + 1 and an empty history, and nothing else changes |
| Game.ProceedToFirstTrial | js/game.js:93-95 | leaving the instructions starts the trial at the current index |
| Game.BeginFirstStage | js/game.js:125-129 | the timer's continuation opens the first decision (stage 1); only the stage and the phase change, so wealth, bet, sums, rolls and trial are kept |
| Game.HandleAction | js/game.js:370-394 | wealth + bet is unchanged; a retract happens exactly when the bet covers one step, and an add exactly when wealth covers one step; otherwise a hold is recorded and neither bet nor wealth moves; some action is always recorded; the phase becomes belief, and only bet, wealth and the recorded action change |
| Game.Roll | js/game.js:333-355 | both rolls are appended and added to the sums; the latest snapshot gets the rolls and the sums after them and is otherwise unchanged, so its ground truth stays frozen; earlier snapshots, wealth, bet, stage, trial index, questionnaire, last action and belief, final stats and last outcome and payout are untouched |
| Game.TakeSnapshot | js/game.js:398-421 | the snapshot records the trial id, stage, pre-roll sums, available wealth and bet; it counts the remaining stages as nStages − stage + 1, freezes the race probabilities of those sums (win + loss = 1) and their entropy, and records the pending action and the belief, with no rolls, post-roll sums or scores yet |
| Game.Record | js/game.js:396-423 | the belief is the slider value / 100, and exactly one snapshot is appended; nothing else changes |
| Game.HandleBelief | js/game.js:396-436 | the history grows by exactly one snapshot, the one taken before the roll, and earlier snapshots are kept; a negative wealth ends the experiment without rolling, the result being exactly the experiment's end after the snapshot is recorded; otherwise the result is exactly the roll applied after the snapshot is recorded, so the rolls and sums advance, that snapshot gains only the rolls and the post-roll sums, and the information screen follows |
| Game.AcknowledgeInfo | js/game.js:357-368 | before the last stage the next decision opens at stage + 1 and nothing but the stage and the phase changes; at the last stage the result is exactly the trial's resolution |
| Game.Brier | js/game.js:464-465 | the Brier score is non-negative and is zero for a belief equal to the outcome |
| Game.OutcomeValue | js/game.js:461 | a win scores as 1 and a loss as 0 |
| Game.ScoreStep | js/game.js:462-476 | a step with a numeric belief p gets the Brier score of p against the outcome and an accuracy of 1 minus that score; a step marked N/A gets null for both; nothing else in the step changes |
| Game.ScoreAll | js/game.js:462-476 | every history step is scored in place |
| Game.Relabel | js/game.js:453-458 | the last snapshot is relabelled N/A, with the current bet, and appended a second time, so both copies are the same record |
| Game.ResolveTrial | js/game.js:438-493 | the outcome is a win exactly when the player's sum is strictly greater; the payout is twice the bet on a win and 0 otherwise, and it is credited; the relabelled history is scored; the accuracies of the numeric beliefs are appended; and exactly one trial record is logged, with the start wealth given as the first snapshot's wealth plus the ante; nothing but the phase, wealth, trial, accuracies, log, last outcome and last payout changes |
| Game.ResolveTrialAsWritten | js/game.js:438-476 | as written, resolution throws exactly when the relabelled history holds a numeric belief; it stops at the first one, with the steps before it given null scores, the phase set and the payout credited, but no accuracy recorded, nothing logged and the last outcome and payout not updated; with no numeric belief it equals the corrected resolution |
| GameInvariant.AccuraciesAreStored | js/game.js:462-474 | the accuracies pushed onto the session's list are exactly the accuracy values stored on the scored steps, in history order |
| Game.EndTrial | js/game.js:495-498 | the trial index advances by one before the next trial starts |
| Game.Mean | js/game.js:504-505 | the mean is 0 for no scores; otherwise mean × count = sum |
| Game.WithPayment | js/game.js:521-527 | every logged trial gets the payment figures and is otherwise unchanged |
| Game.EndExperiment | js/game.js:500-530 | the final wealth is the wealth floored at 0; the reward is final wealth × mean accuracy / 100; the total is the reward + 3.00; every logged trial carries the figures; only the phase, the final stats and the log change |
| GameInvariant.AccuracyInRange | js/game.js:464-465 | a belief in [0, 1] scored against a 0/1 outcome has accuracy in [0, 1] |
| GameInvariant.AccuraciesInRange | js/game.js:462-476 | every recorded accuracy lies in [0, 1] |
| GameInvariant.AccuraciesCount | js/game.js:462-476 | each numeric belief yields exactly one accuracy |
| GameInvariant.RelabelledAccuracies | js/game.js:453-476 | resolution scores every reported belief except the last one, which was relabelled N/A before scoring |
| GameInvariant.BrierIsProper | js/game.js:464 | under a true win probability q, the expected Brier score is the squared distance of the report from q plus a term independent of the report |
| GameInvariant.TruthMinimisesBrier | js/game.js:464 | reporting the true probability minimises the expected Brier score |
| GameInvariant.NewSessionInv | js/game.js:7-61 | a new session with at least one stage and one face satisfies the invariant |
| GameInvariant.StartKeepsInv | js/game.js:67-70 | start preserves the invariant |
| GameInvariant.StartQuestionnaireKeepsInv | js/game.js:72-76 | opening the questionnaire preserves the invariant |
| GameInvariant.AnswerKeepsInv | js/game.js:78-91 | the total score stays the sum of the answers |
| GameInvariant.StartTrialKeepsInv | js/game.js:97-123 | starting a trial (or ending the experiment) preserves the invariant |
| GameInvariant.BeginFirstStageKeepsInv | js/game.js:125-129 | the timer's continuation preserves the invariant |
| GameInvariant.HandleActionKeepsInv | js/game.js:370-394 | a decision preserves the invariant |
| GameInvariant.HandleBeliefKeepsInv | js/game.js:396-436 | a belief report of 0-100 preserves the invariant, on both the bankrupt and the rolling path |
| GameInvariant.RollKeepsInv | js/game.js:333-355 | rolling after a recorded belief reaches the information screen inside the invariant: one roll per snapshot, and the sums are the rolls' sums |
| GameInvariant.AcknowledgeKeepsInv | js/game.js:357-368 | acknowledging keeps the stage within 1..nStages, or resolves the trial, logging nStages + 1 snapshots and keeping every accuracy in [0, 1] |
| GameInvariant.EndTrialKeepsInv | js/game.js:495-498 | moving on to the next trial preserves the invariant |
| GameInvariant.EndExperimentKeepsInv | js/game.js:500-530 | ending the experiment preserves the invariant |
| GameInvariant.Step | js/game.js:67-530 | every input the interface offers in the current phase leads to a session inside the invariant |
| GameInvariant.Run | js/game.js:67-530 | any run of inputs stays inside the invariant |
| GameInvariant.LoggedSteps | js/game.js:478-487 | every logged trial holds nStages + 1 snapshots, so the log holds (number of trials)·(nStages + 1) steps |
| GameInvariant.ExportNeverThrows | js/logger.js:13-69 | in every reachable session the export either has nothing to do or yields (number of trials)·(nStages + 1) rows; it never reaches a log with trials but no rows |
| GameInvariant.MeanInRange | js/game.js:504-505 | the mean of accuracies in [0, 1] lies in [0, 1] |
| GameInvariant.PaymentBounds | js/game.js:507-511 | the total payment lies between the base pay and the base pay plus one hundredth of the final wealth |
| GameInvariant.ExportedRowsCarryPayment | js/game.js:521-527 | after the experiment ends, every exported row carries the total payment and the performance reward |
| GameInvariant.ExportedRowsCarryGroundTruth | js/game.js:406-421 | every exported row's win and loss probabilities are the race probabilities of that row's own pre-roll sums and remaining stages |
| GameInvariant.FrozenAfterRoll | js/game.js:343-351 | the roll writes only the roll fields onto the latest snapshot, so every snapshot keeps the ground truth of its own pre-roll sums |
| GameInvariant.LastBeliefNeverScored | js/game.js:453-476 | resolving a trial of n stages adds n − 1 accuracies; both copies of the final snapshot stay unscored |
| GameInvariant.DoubleAcknowledgeSkipsDecision | js/game.js:357-368 | with no guard, a second acknowledgement skips a decision and leaves the invariant |
| GameInvariant.ResolveAsWrittenThrows | js/game.js:462-476 | as written, resolving a trial of two or more stages fails before logging, while the corrected resolution logs the trial |
| GameInvariant.ResolveAsWrittenSingleStage | js/game.js:453-476 | as written, a single-stage trial resolves correctly, because its only belief is relabelled N/A first |
| GameScenarios.DefaultConfiguration | js/game.js:8-15 | without options the defaults are 500, 15, 5, 10, 3, 6 and 0; a zero option also takes the default; a given starting wealth is used |
| GameScenarios.AnswersRecorded | js/game.js:78-91 | answering from the first item records every answer and their sum, and the instructions follow exactly from the ninth answer |
| GameScenarios.HoldStageAdvances | js/game.js:333-436 | a held stage before the last one moves to the next decision, adds the rolls to the sums and appends one snapshot; wealth and bet are unchanged |
| GameScenarios.HoldLastStage | js/game.js:357-436 | the last held stage resolves the trial on the sums after its rolls |
| GameScenarios.FirstDecision | js/game.js:97-129 | the default session's first decision has 485 points left after the ante of 15, and nothing is rolled |
| GameScenarios.MidwayStep | js/game.js:333-436 | holding a stage of the default first trial keeps every 50 % belief and adds the rolls |
| GameScenarios.ThirdBelief | js/game.js:396-436 | after 4-2 and 3-5, a third belief and a 6-1 roll give 13 against 8 with three 50 % beliefs |
| GameScenarios.ResolveWonTrial | js/game.js:438-493 | 13 against 8 with a bet of 15 wins 30, ends at 515 with accuracies 0.75 and 0.75, and logs four snapshots |
| GameScenarios.ThreeHeldStages | js/game.js:333-493 | three held stages from the default first decision win the trial |
| GameScenarios.EndToEndTrial | js/game.js:93-493 | from construction, one default trial ends at wealth 515 with two accuracies of 0.75 and one logged trial |
| GameScenarios.AccuracyScenario | js/game.js:464-465 | a belief of 0.8 scores 0.04 against a win and 0.64 against a loss |
| GameScenarios.PaymentScenario | js/game.js:502-511 | a final wealth of 600 at a mean accuracy of 0.75 earns 4.50 and 7.50 in total |
| GameScenarios.BankruptcyScenario | js/game.js:97-432 | a trial starts even when the ante exceeds the wealth; the first belief report then ends the experiment with the base pay alone and nothing logged |
| GameScenarios.TieGoesToHouse | js/math.js:35-42 | a tie decided now goes to the house |

## Left out

- js/ui.js and js/main.js: rendering, key binding, the dice animation and the
  bootstrap are interface code. The phase in which the interface offers each
  input appears only as `GameInvariant.Enabled`.
- The earlier duplicate method bodies (js/game.js:132-326) are not modelled.
  The later definitions of the same names replace them.
- `resumeFromBlockBreak` and block breaks are not modelled. Nothing enters
  `BLOCK_BREAK` or `TRIAL_END`, and `blockSize` is never read.
- Randomness is not modelled:
  - the rolls (`Math.random`) are parameters of `HandleBelief` and `Roll`;
  - the generated participant id is a parameter of `NewSession`.
- `UI.render` is not modelled, and neither is the bankruptcy `alert`.
- `parseInt` and `parseFloat` are not modelled: answers and beliefs arrive as
  numbers.
- Floating point is not modelled. Probabilities, beliefs and payments are exact
  reals, so the rounding the engine's numeric tolerance allows for is absent.
- `Math.log2` is a parameter. Entropy values are stated only relative to it.
- Engine inputs that only a malformed configuration produces are not modelled:
  - a negative number of remaining stages, which a negative `nStages` gives;
  - a negative number of sides, for which the engine throws a RangeError when
    it sizes the die's array (a zero takes the default of 6).
  The engine's signature takes a `nat` and its precondition asks for
  `1 <= sides`.
- Action tokens other than retract, hold and add are not modelled. The source
  records any other token as a hold, which `Action` cannot express.
- `JSON.stringify` is the `encode` parameter. The read-back lemmas
  (TrialLog.CsvReadsBack, TrialLog.ExportReadsBack) hold when no exported cell
  holds a comma or a newline. A text cell with a comma, such as a participant
  id given with one, breaks the plain split. CSV quoting is not modelled.
- The download of the CSV text (js/logger.js:71-80) is not modelled.
- The `mean_accuracy` that `endExperiment` writes onto each trial is not
  modelled as a column: the export never reads it.
- DiceMath.Convolve: requires at least one entry between the two vectors. With
  two empty vectors js/math.js:16 sizes an array of length −1 and throws a
  RangeError; that error path is not modelled. The engine never reaches it,
  because every vector it convolves is a die's distribution, which has
  `sides >= 1` entries.
- DiceMath.ConvSum: states mass preservation only when the second vector sums
  to 1, which is the only way the engine uses `convolve`. In general the mass
  is the product of the two sums.
- Game.Brier: its own contract states only non-negativity and the zero at the
  outcome. The squared error it is meant to be is stated through
  `GameInvariant.BrierIsProper` and `GameInvariant.AccuracyInRange`.

Behaviour of the code worth knowing, all of it modelled as written:

- `acknowledgeInfo` has no guard against a repeated call (js/game.js:357-368).
  See `GameInvariant.DoubleAcknowledgeSkipsDecision`.
- `startTrial` takes the ante without checking that wealth covers it
  (js/game.js:105-108). A negative wealth is noticed only at the next belief
  report, after its snapshot is taken (js/game.js:428-432).
- A tie goes to the house (js/math.js:36-41, 80-85; js/game.js:444-450), so
  exchanging player and house does not exchange win and loss.
- The exported row has no questionnaire columns (js/logger.js:21-59).
- The belief is divided by 100 but not clamped (js/game.js:398).
  `GameInvariant.Enabled` restricts it to the slider's range of 0-100.
- The last stage's reported belief is never scored. `resolveTrial` relabels
  that snapshot "N/A" before scoring and logs it twice (js/game.js:453-458).

## Findings

| source | as written | input that shows it | evidently intended | confidence | as-written member | corrected member |
|---|---|---|---|---|---|---|
| js/game.js:464 | resolveTrial calls `MathLogic.calculate_brier_score`, which js/math.js neither defines nor exports (js/math.js:113-117), so the call throws a TypeError at the first snapshot with a numeric belief | any trial with nStages ≥ 2, e.g. the default session's first trial | the Brier score (belief − outcome)², with accuracy 1 − Brier appended for each numeric belief and the trial then logged | not executed | GameInvariant.ResolveAsWrittenThrows | Game.ResolveTrial |
