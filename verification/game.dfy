/** The game session of js/game.js as a state machine: one pure transition per entry
    point, the dice rolls and the 100 ms presentation delay made explicit, and the
    trial log carried in the state. Only the effective definitions of the class are
    modelled (a later method of the same name replaces an earlier one). */
module Game {
  import opened Sums
  import opened DiceMath
  import opened Records
  import opened TrialLog

  /** The session states the code enters (js/game.js:23-25; TRIAL_END and
      BLOCK_BREAK are never entered by the effective methods). */
  datatype Phase =
    | Welcome | Questionnaire | Instructions
    | TrialStart | StageAction | StageBelief | StageInfo | StageResult
    | End

  /** Number of questionnaire items (js/game.js:33-43). */
  const QuestionCount: nat := 9

  /** The fixed show-up payment (js/game.js:510). */
  const BasePay: real := 3.0

  /** Constructor options as given by the caller; each may be absent. */
  datatype Options = Options(
    participantId: Option<string>,
    startWealth: Option<int>,
    ante: Option<int>,
    betStep: Option<int>,
    nTrials: Option<int>,
    nStages: Option<int>,
    diceSides: Option<int>,
    startingBias: Option<int>)

  datatype Config = Config(
    participantId: string,
    startWealth: int,
    ante: int,
    betStep: int,
    nTrials: int,
    nStages: int,
    diceSides: int,
    startingBias: int)

  datatype Trial = Trial(trialId: int, history: seq<Snapshot>)

  datatype FinalStats = FinalStats(
    finalWealth: int,
    meanAccuracy: real,
    performanceReward: real,
    basePay: real,
    totalPayment: real)

  datatype Session = Session(
    config: Config,
    phase: Phase,
    trialIndex: int,
    wealth: int,
    answers: seq<int>,
    totalScore: int,
    questionIndex: int,
    trial: Option<Trial>,
    stage: int,
    bet: int,
    playerSum: int,
    houseSum: int,
    playerRolls: seq<int>,
    houseRolls: seq<int>,
    lastAction: ActionMark,
    lastBelief: Option<real>,
    accuracyScores: seq<real>,
    finalStats: Option<FinalStats>,
    lastOutcome: Option<Outcome>,
    lastPayout: int,
    log: seq<TrialRecord>)

  // ---- construction ----

  /** An option that is absent or falsy (zero) takes the default, as `x || d` does. */
  function OrDefault(v: Option<int>, d: int): (r: int)
    ensures v.None? ==> r == d
    ensures v.Some? && v.value == 0 ==> r == d
    ensures v.Some? && v.value != 0 ==> r == v.value
  {
    if v.Some? && v.value != 0 then v.value else d
  }

  /** The constructor. The generated participant id is a parameter (it is random). */
  function NewSession(opts: Options, generatedId: string): (s: Session)
    ensures s.phase == Welcome && s.trialIndex == 0 && s.wealth == s.config.startWealth
    ensures s.answers == [] && s.totalScore == 0 && s.accuracyScores == [] && s.log == []
    ensures s.trial.None? && s.finalStats.None?
    ensures s.config == Config(
      if opts.participantId.Some? && opts.participantId.value != "" then opts.participantId.value else generatedId,
      OrDefault(opts.startWealth, 500), OrDefault(opts.ante, 15), OrDefault(opts.betStep, 5),
      OrDefault(opts.nTrials, 10), OrDefault(opts.nStages, 3), OrDefault(opts.diceSides, 6),
      OrDefault(opts.startingBias, 0))
    ensures s.questionIndex == 0 && s.stage == 0 && s.bet == 0
    ensures s.playerSum == 0 && s.houseSum == 0 && s.playerRolls == [] && s.houseRolls == []
    ensures s.lastAction == NoAction && s.lastBelief.None? && s.lastOutcome.None? && s.lastPayout == 0
  {
    var id := if opts.participantId.Some? && opts.participantId.value != "" then opts.participantId.value else generatedId;
    var c := Config(id, OrDefault(opts.startWealth, 500), OrDefault(opts.ante, 15),
                    OrDefault(opts.betStep, 5), OrDefault(opts.nTrials, 10), OrDefault(opts.nStages, 3),
                    OrDefault(opts.diceSides, 6), OrDefault(opts.startingBias, 0));
    Session(c, Welcome, 0, c.startWealth, [], 0, 0, None, 0, 0, 0, 0, [], [],
            NoAction, None, [], None, None, 0, [])
  }

  // ---- welcome and questionnaire ----

  function Start(s: Session): (r: Session)
    ensures r.phase == Welcome && r == s.(phase := Welcome)
  {
    s.(phase := Welcome)
  }

  /** Opens the questionnaire at its first item; earlier answers are kept. */
  function StartQuestionnaire(s: Session): (r: Session)
    ensures r.phase == Questionnaire && r.questionIndex == 0 && r.answers == s.answers
    ensures r == s.(phase := Questionnaire, questionIndex := 0)
  {
    s.(phase := Questionnaire, questionIndex := 0)
  }

  /** Records one answer; after the ninth item the instructions follow. */
  function AnswerQuestion(s: Session, value: int): (r: Session)
    ensures r.answers == s.answers + [value]
    ensures r.totalScore == s.totalScore + value
    ensures r.questionIndex == s.questionIndex + 1
    ensures r.phase == (if s.questionIndex + 1 >= QuestionCount then Instructions else s.phase)
    ensures r == s.(answers := r.answers, totalScore := r.totalScore, questionIndex := r.questionIndex, phase := r.phase)
  {
    var next := s.(answers := s.answers + [value], totalScore := s.totalScore + value,
                   questionIndex := s.questionIndex + 1);
    if next.questionIndex >= QuestionCount then next.(phase := Instructions) else next
  }

  // ---- trials ----

  /** Starts the trial at trialIndex, or ends the experiment once every trial has
      been played. The ante is moved from wealth to the bet without any check. */
  function StartTrial(s: Session): (r: Session)
    ensures s.trialIndex >= s.config.nTrials ==> r.phase == End && r.wealth == s.wealth
    ensures s.trialIndex >= s.config.nTrials ==> r == EndExperiment(s)
    ensures s.trialIndex < s.config.nTrials ==>
      && r.phase == TrialStart && r.stage == 0
      && r.bet == s.config.ante && r.wealth + r.bet == s.wealth
      && r.trial == Some(Trial(s.trialIndex + 1, []))
      && r.playerRolls == [] && r.houseRolls == []
      && r.playerSum == 0 && r.houseSum == s.config.startingBias
    ensures s.trialIndex < s.config.nTrials ==>
      r == s.(phase := TrialStart, stage := 0, bet := r.bet, wealth := r.wealth, playerSum := 0,
              houseSum := r.houseSum, playerRolls := [], houseRolls := [], trial := r.trial)
  {
    if s.trialIndex >= s.config.nTrials then EndExperiment(s)
    else
      s.(phase := TrialStart, stage := 0, bet := s.config.ante, wealth := s.wealth - s.config.ante,
         playerSum := 0, houseSum := s.config.startingBias, playerRolls := [], houseRolls := [],
         trial := Some(Trial(s.trialIndex + 1, [])))
  }

  function ProceedToFirstTrial(s: Session): (r: Session)
    ensures r == StartTrial(s)
  {
    StartTrial(s)
  }

  /** The continuation scheduled 100 ms after a trial starts: the first decision. */
  function BeginFirstStage(s: Session): (r: Session)
    ensures r.phase == StageAction && r.stage == 1
    ensures r.wealth == s.wealth && r.bet == s.bet && r.trial == s.trial
    ensures r == s.(stage := 1, phase := StageAction)
  {
    s.(stage := 1, phase := StageAction)
  }

  /** A decision. Retracting needs a bet of at least one step, adding needs wealth of
      at least one step; a move that is not possible is recorded as a hold. */
  function HandleAction(s: Session, a: Action): (r: Session)
    ensures r.phase == StageBelief && r.lastAction.Took?
    ensures r == s.(bet := r.bet, wealth := r.wealth, lastAction := r.lastAction, phase := StageBelief)
    ensures r.wealth + r.bet == s.wealth + s.bet
    ensures r.lastAction == Took(Retract) <==> a == Retract && s.bet >= s.config.betStep
    ensures r.lastAction == Took(Add) <==> a == Add && s.wealth >= s.config.betStep
    ensures r.lastAction == Took(Retract) ==> r.bet == s.bet - s.config.betStep
    ensures r.lastAction == Took(Add) ==> r.bet == s.bet + s.config.betStep
    ensures r.lastAction == Took(Hold) ==> r.bet == s.bet
  {
    if a == Retract && s.bet >= s.config.betStep then
      s.(bet := s.bet - s.config.betStep, wealth := s.wealth + s.config.betStep,
         lastAction := Took(Retract), phase := StageBelief)
    else if a == Add && s.wealth >= s.config.betStep then
      s.(bet := s.bet + s.config.betStep, wealth := s.wealth - s.config.betStep,
         lastAction := Took(Add), phase := StageBelief)
    else
      s.(lastAction := Took(Hold), phase := StageBelief)
  }

  /** nextStage with the two rolls as parameters: both rolls are added to the sums and
      written, with the sums after the roll, onto the latest snapshot. */
  function Roll(s: Session, pRoll: int, hRoll: int): (r: Session)
    requires s.trial.Some?
    ensures r.phase == StageInfo
    ensures r.config == s.config && r.stage == s.stage && r.wealth == s.wealth && r.bet == s.bet
    ensures r.accuracyScores == s.accuracyScores && r.log == s.log
    ensures r.trialIndex == s.trialIndex && r.answers == s.answers && r.totalScore == s.totalScore
    ensures r.questionIndex == s.questionIndex && r.lastAction == s.lastAction && r.lastBelief == s.lastBelief
    ensures r.finalStats == s.finalStats && r.lastOutcome == s.lastOutcome && r.lastPayout == s.lastPayout
    ensures r.playerRolls == s.playerRolls + [pRoll] && r.houseRolls == s.houseRolls + [hRoll]
    ensures r.playerSum == s.playerSum + pRoll && r.houseSum == s.houseSum + hRoll
    ensures r.trial.Some? && r.trial.value.trialId == s.trial.value.trialId
    ensures |r.trial.value.history| == |s.trial.value.history|
    ensures forall j :: 0 <= j < |s.trial.value.history| - 1 ==> r.trial.value.history[j] == s.trial.value.history[j]
    ensures |s.trial.value.history| > 0 ==>
      var n := |s.trial.value.history| - 1;
      r.trial.value.history[n]
        == s.trial.value.history[n].(pRoll := Some(pRoll), hRoll := Some(hRoll),
                                     pSumAfterRoll := Some(r.playerSum), hSumAfterRoll := Some(r.houseSum))
  {
    var ps := s.playerSum + pRoll;
    var hs := s.houseSum + hRoll;
    var h := s.trial.value.history;
    var h' := if |h| > 0 then
                h[..|h| - 1] + [h[|h| - 1].(pRoll := Some(pRoll), hRoll := Some(hRoll),
                                            pSumAfterRoll := Some(ps), hSumAfterRoll := Some(hs))]
              else h;
    s.(playerRolls := s.playerRolls + [pRoll], houseRolls := s.houseRolls + [hRoll],
       playerSum := ps, houseSum := hs, trial := Some(s.trial.value.(history := h')),
       phase := StageInfo)
  }

  /** The snapshot taken when a belief is reported: the ground truth from the sums
      before the roll, with the stages still to come counting the current one. */
  function TakeSnapshot(s: Session, belief: real, log2: real --> real): (snap: Snapshot)
    requires s.trial.Some? && 1 <= s.config.diceSides && s.stage <= s.config.nStages + 1
    requires forall x :: 0.0 < x ==> log2.requires(x)
    ensures snap.remainingStages == s.config.nStages - s.stage + 1
    ensures snap.probs == Probabilities(s.playerSum, s.houseSum, snap.remainingStages, s.config.diceSides)
    ensures snap.probs.win + snap.probs.loss == 1.0
    ensures snap.belief == Reported(belief) && snap.action == s.lastAction
    ensures snap.pRoll.None? && snap.hRoll.None? && snap.brier.None? && snap.accuracy.None?
    ensures snap.pSumAfterRoll.None? && snap.hSumAfterRoll.None?
    ensures snap.trialId == s.trial.value.trialId && snap.stage == s.stage
    ensures snap.pSum == s.playerSum && snap.hSum == s.houseSum
    ensures snap.wealthAvailable == s.wealth && snap.currentBet == s.bet && snap.betAfterAction == s.bet
    ensures snap.entropy == Entropy(snap.probs.win, snap.probs.loss, log2)
  {
    var remaining := s.config.nStages - s.stage + 1;
    var probs := Probabilities(s.playerSum, s.houseSum, remaining, s.config.diceSides);
    ProbabilitiesSumToOne(s.playerSum, s.houseSum, remaining, s.config.diceSides);
    Snapshot(s.trial.value.trialId, s.stage, None, None, s.playerSum, s.houseSum, s.wealth, s.bet,
             remaining, probs, Entropy(probs.win, probs.loss, log2), s.lastAction, Reported(belief),
             s.bet, None, None, None, None)
  }

  /** A belief report (slider value 0-100): the snapshot is appended; a negative
      wealth ends the experiment, otherwise the dice are rolled. */
  function HandleBelief(s: Session, value: real, pRoll: int, hRoll: int, log2: real --> real): (r: Session)
    requires s.trial.Some? && 1 <= s.config.diceSides && s.stage <= s.config.nStages + 1
    requires forall x :: 0.0 < x ==> log2.requires(x)
    ensures r.lastBelief == Some(value / 100.0)
    ensures r.config == s.config && r.wealth == s.wealth && r.accuracyScores == s.accuracyScores
    ensures r.trial.Some? && r.trial.value.trialId == s.trial.value.trialId
    ensures |r.trial.value.history| == |s.trial.value.history| + 1
    ensures r.trial.value.history[..|s.trial.value.history|] == s.trial.value.history
    ensures r.trial.value.history[|s.trial.value.history|].belief == Reported(value / 100.0)
    ensures s.wealth < 0 ==>
      r.trial.value.history[|s.trial.value.history|] == TakeSnapshot(s, value / 100.0, log2)
    ensures s.wealth >= 0 ==>
      r.trial.value.history[|s.trial.value.history|]
        == TakeSnapshot(s, value / 100.0, log2).(pRoll := Some(pRoll), hRoll := Some(hRoll),
                                                 pSumAfterRoll := Some(s.playerSum + pRoll),
                                                 hSumAfterRoll := Some(s.houseSum + hRoll))
    ensures s.wealth < 0 ==> r.phase == End && r.playerRolls == s.playerRolls
    ensures s.wealth < 0 ==> r == EndExperiment(Record(s, value, log2))
    ensures s.wealth >= 0 ==> r.phase == StageInfo && r.playerRolls == s.playerRolls + [pRoll]
    ensures s.wealth >= 0 ==> r.stage == s.stage && r.bet == s.bet && r.log == s.log
    ensures s.wealth >= 0 ==> r == Roll(Record(s, value, log2), pRoll, hRoll)
  {
    var s1 := Record(s, value, log2);
    if s1.wealth < 0 then EndExperiment(s1) else Roll(s1, pRoll, hRoll)
  }

  /** The first half of a belief report: the snapshot is pushed onto the trial's
      history and the belief remembered; nothing else changes. */
  function Record(s: Session, value: real, log2: real --> real): (r: Session)
    requires s.trial.Some? && 1 <= s.config.diceSides && s.stage <= s.config.nStages + 1
    requires forall x :: 0.0 < x ==> log2.requires(x)
    ensures r.trial.Some? && r.trial.value.trialId == s.trial.value.trialId
    ensures r.trial.value.history == s.trial.value.history + [TakeSnapshot(s, value / 100.0, log2)]
    ensures r == s.(lastBelief := Some(value / 100.0), trial := r.trial)
  {
    var belief := value / 100.0;
    s.(lastBelief := Some(belief),
       trial := Some(s.trial.value.(history := s.trial.value.history + [TakeSnapshot(s, belief, log2)])))
  }

  /** Moves to the next decision, or resolves the trial after the last stage. There
      is no guard against a repeated call. */
  function AcknowledgeInfo(s: Session): (r: Session)
    requires s.trial.Some? && (s.stage >= s.config.nStages ==> |s.trial.value.history| > 0)
    ensures s.stage < s.config.nStages ==> r.phase == StageAction && r.stage == s.stage + 1 && r.trial == s.trial
    ensures s.stage < s.config.nStages ==> r == s.(stage := s.stage + 1, phase := StageAction)
    ensures s.stage >= s.config.nStages ==> r.phase == StageResult && r == ResolveTrial(s)
  {
    if s.stage < s.config.nStages then s.(stage := s.stage + 1, phase := StageAction)
    else ResolveTrial(s)
  }

  // ---- resolution and scoring ----

  /** The quadratic (Brier) score of a probability report against a 0/1 outcome. */
  function Brier(belief: real, outcome: real): (b: real)
    ensures 0.0 <= b
    ensures belief == outcome ==> b == 0.0
  {
    var d := belief - outcome;
    SquareNonNegative(d);
    d * d
  }

  lemma SquareNonNegative(d: real)
    ensures 0.0 <= d * d
  {
    if d < 0.0 {
      assert d * d == (-d) * (-d);
    }
  }

  function OutcomeValue(o: Outcome): (v: real)
    ensures v == 1.0 <==> o == Win
    ensures v == 0.0 <==> o == Loss
  {
    match o
    case Win => 1.0
    case Loss => 0.0
  }

  /** A snapshot with a reported belief gets its Brier score and accuracy
      (1 − Brier); one marked "N/A" gets null for both. */
  function ScoreStep(step: Snapshot, o: real): (r: Snapshot)
    ensures r.(brier := step.brier, accuracy := step.accuracy) == step
    ensures step.belief.Reported? <==> r.accuracy.Some?
    ensures step.belief.Reported? <==> r.brier.Some?
    ensures r.brier.Some? ==> r.accuracy.Some? && r.accuracy.value + r.brier.value == 1.0
    ensures step.belief.Reported? ==> r.brier == Some(Brier(step.belief.p, o))
  {
    match step.belief
    case Reported(p) => step.(brier := Some(Brier(p, o)), accuracy := Some(1.0 - Brier(p, o)))
    case BeliefNA => step.(brier := None, accuracy := None)
  }

  function ScoreAll(h: seq<Snapshot>, o: real): (r: seq<Snapshot>)
    ensures |r| == |h|
    ensures forall j :: 0 <= j < |h| ==> r[j] == ScoreStep(h[j], o)
  {
    seq(|h|, j requires 0 <= j < |h| => ScoreStep(h[j], o))
  }

  /** The accuracies of the reported beliefs, in history order. */
  function Accuracies(h: seq<Snapshot>, o: real): seq<real>
    decreases |h|
  {
    if |h| == 0 then []
    else
      var last := h[|h| - 1];
      Accuracies(h[..|h| - 1], o)
        + (if last.belief.Reported? then [1.0 - Brier(last.belief.p, o)] else [])
  }

  /** The accuracy fields a history carries, in history order, nulls skipped. */
  function StoredAccuracies(h: seq<Snapshot>): seq<real>
    decreases |h|
  {
    if |h| == 0 then []
    else
      var last := h[|h| - 1];
      StoredAccuracies(h[..|h| - 1]) + (if last.accuracy.Some? then [last.accuracy.value] else [])
  }

  /** The final snapshot (the one the last roll was written onto) is relabelled
      "N/A" and appended a second time: both copies are the same record. */
  function Relabel(h: seq<Snapshot>, bet: int): (r: seq<Snapshot>)
    requires |h| > 0
    ensures |r| == |h| + 1
    ensures r[..|h| - 1] == h[..|h| - 1]
    ensures r[|h| - 1] == r[|h|]
    ensures r[|h|].belief == BeliefNA && r[|h|].action == ActionNA && r[|h|].betAfterAction == bet
    ensures r[|h|] == h[|h| - 1].(action := ActionNA, belief := BeliefNA, betAfterAction := bet)
  {
    var last := h[|h| - 1].(action := ActionNA, belief := BeliefNA, betAfterAction := bet);
    h[..|h| - 1] + [last, last]
  }

  /** Resolves the trial: the outcome by the tie-break rule, the payout credited,
      every reported belief scored, and the trial logged. */
  function ResolveTrial(s: Session): (r: Session)
    requires s.trial.Some? && |s.trial.value.history| > 0
    ensures r.phase == StageResult
    ensures r.lastOutcome == Some(Judge(s.playerSum, s.houseSum))
    ensures r.lastPayout == (if s.playerSum > s.houseSum then 2 * s.bet else 0)
    ensures r.wealth == s.wealth + r.lastPayout
    ensures r.trial.Some? && r.trial.value.trialId == s.trial.value.trialId
    ensures r.trial.value.history
         == ScoreAll(Relabel(s.trial.value.history, s.bet), OutcomeValue(r.lastOutcome.value))
    ensures r.accuracyScores
         == s.accuracyScores + Accuracies(Relabel(s.trial.value.history, s.bet), OutcomeValue(r.lastOutcome.value))
    ensures |r.log| == |s.log| + 1 && r.log[..|s.log|] == s.log
    ensures r.log[|s.log|] == TrialRecord(s.config.participantId, s.trial.value.trialId, r.lastOutcome.value,
                                          s.trial.value.history[0].wealthAvailable + s.config.ante,
                                          r.wealth, r.trial.value.history, None)
    ensures r == s.(phase := StageResult, wealth := r.wealth, trial := r.trial, accuracyScores := r.accuracyScores,
                    log := r.log, lastOutcome := r.lastOutcome, lastPayout := r.lastPayout)
  {
    var outcome := Judge(s.playerSum, s.houseSum);
    var payout := if outcome == Win then s.bet * 2 else 0;
    var o := OutcomeValue(outcome);
    var h := Relabel(s.trial.value.history, s.bet);
    var scored := ScoreAll(h, o);
    var record := TrialRecord(s.config.participantId, s.trial.value.trialId, outcome,
                              scored[0].wealthAvailable + s.config.ante, s.wealth + payout, scored, None);
    s.(phase := StageResult, wealth := s.wealth + payout,
       trial := Some(s.trial.value.(history := scored)),
       accuracyScores := s.accuracyScores + Accuracies(h, o),
       log := LogTrial(s.log, record),
       lastOutcome := Some(outcome), lastPayout := payout)
  }

  /** What resolveTrial does as written: it calls a Brier-score function that the
      math module does not define. The first snapshot with a reported belief throws,
      after the phase was set and the payout credited, and before anything is scored
      into accuracyScores or logged; snapshots before it got null scores. */
  datatype Resolution = Resolved(after: Session) | Threw(at: Session)

  /** Index of the first snapshot with a reported belief, or |h| when there is none. */
  function FirstReported(h: seq<Snapshot>): (k: nat)
    ensures k <= |h|
    ensures forall j :: 0 <= j < k ==> !h[j].belief.Reported?
    ensures k < |h| ==> h[k].belief.Reported?
    decreases |h|
  {
    if |h| == 0 then 0
    else if h[0].belief.Reported? then 0
    else 1 + FirstReported(h[1..])
  }

  function ResolveTrialAsWritten(s: Session): (res: Resolution)
    requires s.trial.Some? && |s.trial.value.history| > 0
    ensures res.Resolved? ==> res.after == ResolveTrial(s)
    ensures res.Threw? ==> res.at.log == s.log && res.at.accuracyScores == s.accuracyScores
    ensures res.Threw? ==> res.at.phase == StageResult && res.at.wealth == ResolveTrial(s).wealth
    ensures res.Threw? ==> res.at.lastOutcome == s.lastOutcome && res.at.lastPayout == s.lastPayout
    ensures var h := Relabel(s.trial.value.history, s.bet);
      res.Threw? <==> exists j :: 0 <= j < |h| && h[j].belief.Reported?
    ensures res.Threw? ==>
      var h := Relabel(s.trial.value.history, s.bet);
      var k := FirstReported(h);
      && k < |h|
      && res.at == s.(phase := StageResult, wealth := ResolveTrial(s).wealth,
                      trial := Some(s.trial.value.(history := ScoreAll(h[..k], OutcomeValue(Judge(s.playerSum, s.houseSum)))
                                                             + h[k..])))
  {
    var outcome := Judge(s.playerSum, s.houseSum);
    var payout := if outcome == Win then s.bet * 2 else 0;
    var o := OutcomeValue(outcome);
    var h := Relabel(s.trial.value.history, s.bet);
    var k := FirstReported(h);
    if k < |h| then
      Threw(s.(phase := StageResult, wealth := s.wealth + payout,
               trial := Some(s.trial.value.(history := ScoreAll(h[..k], o) + h[k..]))))
    else Resolved(ResolveTrial(s))
  }

  /** Leaves the result screen for the next trial. */
  function EndTrial(s: Session): (r: Session)
    ensures r == StartTrial(s.(trialIndex := s.trialIndex + 1))
  {
    StartTrial(s.(trialIndex := s.trialIndex + 1))
  }

  // ---- end of the experiment ----

  /** Arithmetic mean, 0 for no scores. */
  function Mean(xs: seq<real>): (m: real)
    ensures |xs| == 0 ==> m == 0.0
    ensures |xs| > 0 ==> m * |xs| as real == Sum(xs)
  {
    if |xs| > 0 then Sum(xs) / |xs| as real else 0.0
  }

  /** Every logged trial gets the final payment figures. */
  function WithPayment(log: seq<TrialRecord>, p: Payment): (r: seq<TrialRecord>)
    ensures |r| == |log|
    ensures forall i :: 0 <= i < |log| ==> r[i] == log[i].(payment := Some(p))
  {
    seq(|log|, i requires 0 <= i < |log| => log[i].(payment := Some(p)))
  }

  /** Ends the experiment: the reward is the final wealth, floored at 0, times the
      mean accuracy, divided by 100, plus the base pay; the figures are also written
      onto every logged trial. */
  function EndExperiment(s: Session): (r: Session)
    ensures r.phase == End && r.finalStats.Some?
    ensures r.wealth == s.wealth && r.accuracyScores == s.accuracyScores && r.config == s.config
    ensures var f := r.finalStats.value;
      && 0 <= f.finalWealth && s.wealth <= f.finalWealth
      && (f.finalWealth == 0 || f.finalWealth == s.wealth)
      && f.meanAccuracy == Mean(s.accuracyScores)
      && 100.0 * f.performanceReward == f.finalWealth as real * f.meanAccuracy
      && f.basePay == BasePay
      && f.totalPayment == f.performanceReward + BasePay
      && r.log == WithPayment(s.log, Payment(f.performanceReward, f.totalPayment, f.meanAccuracy))
    ensures r == s.(phase := End, finalStats := r.finalStats, log := r.log)
  {
    var mean := Mean(s.accuracyScores);
    var finalWealth := if s.wealth > 0 then s.wealth else 0;
    var reward := (finalWealth as real * mean) / 100.0;
    var total := reward + BasePay;
    s.(phase := End,
       finalStats := Some(FinalStats(finalWealth, mean, reward, BasePay, total)),
       log := WithPayment(s.log, Payment(reward, total, mean)))
  }
}
