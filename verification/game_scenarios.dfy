/** Concrete sessions: the default configuration, the questionnaire, one full trial,
    the scoring and payment figures, and a session that starts a trial it cannot
    afford. */
module GameScenarios {
  import opened Sums
  import opened DiceMath
  import opened Records
  import opened TrialLog
  import opened Game
  import opened GameInvariant

  const NoOptions := Options(None, None, None, None, None, None, None, None)

  /** Without options the session starts with 500 points, an ante of 15, steps of 5,
      10 trials of 3 stages, six-sided dice and no house bias; a zero is falsy and
      also takes the default. */
  lemma DefaultConfiguration(id: string)
    ensures NewSession(NoOptions, id).config == Config(id, 500, 15, 5, 10, 3, 6, 0)
    ensures NewSession(NoOptions.(startWealth := Some(0), nStages := Some(0)), id).config
         == NewSession(NoOptions, id).config
    ensures NewSession(NoOptions.(startWealth := Some(300)), id).wealth == 300
    ensures Inv(NewSession(NoOptions, id))
  {
    NewSessionInv(NoOptions, id);
  }

  /** Answers given one after another. */
  function AnswerAll(s: Session, answers: seq<int>): (r: Session)
    decreases |answers|
  {
    if |answers| == 0 then s
    else AnswerQuestion(AnswerAll(s, answers[..|answers| - 1]), answers[|answers| - 1])
  }

  /** From the first item, the questionnaire records every answer, keeps the total,
      and moves on to the instructions exactly when the ninth answer is given. */
  lemma {:induction false} AnswersRecorded(s: Session, answers: seq<int>)
    requires s.phase.Questionnaire? && s.questionIndex == 0
    ensures AnswerAll(s, answers).answers == s.answers + answers
    ensures AnswerAll(s, answers).totalScore == s.totalScore + SumInts(answers)
    ensures AnswerAll(s, answers).questionIndex == |answers|
    ensures AnswerAll(s, answers).phase == if |answers| >= QuestionCount then Instructions else Questionnaire
    decreases |answers|
  {
    if |answers| > 0 {
      var n := |answers| - 1;
      AnswersRecorded(s, answers[..n]);
      assert answers[..n] + [answers[n]] == answers;
      assert s.answers + answers[..n] + [answers[n]] == s.answers + answers;
    }
  }

  /** One stage: hold, report a belief, see the rolls, acknowledge. */
  function HoldStage(s: Session, belief: real, pRoll: int, hRoll: int, log2: real --> real): Session
    requires s.trial.Some? && 1 <= s.config.diceSides && s.stage <= s.config.nStages + 1
    requires forall x :: 0.0 < x ==> log2.requires(x)
  {
    var afterBelief := HandleBelief(HandleAction(s, Hold), belief, pRoll, hRoll, log2);
    if afterBelief.trial.Some? && (afterBelief.stage >= afterBelief.config.nStages ==> |afterBelief.trial.value.history| > 0)
    then AcknowledgeInfo(afterBelief)
    else afterBelief
  }

  /** A held stage before the last one moves to the next decision, adds the rolls to
      the sums and appends the stage's snapshot, leaving wealth and bet alone. */
  lemma HoldStageAdvances(s: Session, belief: real, pRoll: int, hRoll: int, log2: real --> real)
    requires s.phase.StageAction? && s.trial.Some? && 1 <= s.config.diceSides
    requires 1 <= s.stage < s.config.nStages && 0 <= s.wealth
    requires forall x :: 0.0 < x ==> log2.requires(x)
    ensures var r := HoldStage(s, belief, pRoll, hRoll, log2);
      var n := |s.trial.value.history|;
      && r.phase.StageAction? && r.stage == s.stage + 1 && r.config == s.config
      && r.wealth == s.wealth && r.bet == s.bet
      && r.playerSum == s.playerSum + pRoll && r.houseSum == s.houseSum + hRoll
      && r.accuracyScores == s.accuracyScores && r.log == s.log
      && r.trial.Some? && r.trial.value.trialId == s.trial.value.trialId
      && |r.trial.value.history| == n + 1
      && r.trial.value.history[..n] == s.trial.value.history
      && r.trial.value.history[n].belief == Reported(belief / 100.0)
      && r.trial.value.history[n].wealthAvailable == s.wealth
  {
    var a := HandleAction(s, Hold);
    var snap := TakeSnapshot(a, belief / 100.0, log2);
    var h := s.trial.value.history;
    var a1 := a.(lastBelief := Some(belief / 100.0), trial := Some(a.trial.value.(history := h + [snap])));
    assert HandleBelief(a, belief, pRoll, hRoll, log2) == Roll(a1, pRoll, hRoll);
    var r := Roll(a1, pRoll, hRoll);
    assert r.trial.value.history == h + [r.trial.value.history[|h|]];
    assert (h + [r.trial.value.history[|h|]])[..|h|] == h;
  }

  /** The last held stage resolves the trial on the sums after its rolls. */
  lemma HoldLastStage(s: Session, belief: real, pRoll: int, hRoll: int, log2: real --> real)
    requires s.phase.StageAction? && s.trial.Some? && 1 <= s.config.diceSides
    requires s.stage == s.config.nStages && 0 <= s.wealth
    requires forall x :: 0.0 < x ==> log2.requires(x)
    ensures var b := HandleBelief(HandleAction(s, Hold), belief, pRoll, hRoll, log2);
      && b.trial.Some? && |b.trial.value.history| > 0
      && HoldStage(s, belief, pRoll, hRoll, log2) == ResolveTrial(b)
      && b.playerSum == s.playerSum + pRoll && b.houseSum == s.houseSum + hRoll
      && b.wealth == s.wealth && b.bet == s.bet && b.config == s.config
      && b.accuracyScores == s.accuracyScores && b.log == s.log
      && |b.trial.value.history| == |s.trial.value.history| + 1
      && b.trial.value.history[..|s.trial.value.history|] == s.trial.value.history
      && b.trial.value.history[|s.trial.value.history|].belief == Reported(belief / 100.0)
  {
    var a := HandleAction(s, Hold);
    var snap := TakeSnapshot(a, belief / 100.0, log2);
    var h := s.trial.value.history;
    var a1 := a.(lastBelief := Some(belief / 100.0), trial := Some(a.trial.value.(history := h + [snap])));
    assert HandleBelief(a, belief, pRoll, hRoll, log2) == Roll(a1, pRoll, hRoll);
    var r := Roll(a1, pRoll, hRoll);
    assert r.trial.value.history == h + [r.trial.value.history[|h|]];
    assert (h + [r.trial.value.history[|h|]])[..|h|] == h;
  }

  predicate FirstDecisionOfDefault(s0: Session)
  {
    && s0.config.nStages == 3 && s0.config.diceSides == 6 && s0.config.ante == 15
    && s0.phase == StageAction && s0.stage == 1 && s0.wealth == 485 && s0.bet == 15
    && s0.trial == Some(Trial(1, [])) && s0.playerSum == 0 && s0.houseSum == 0
    && s0.accuracyScores == [] && s0.log == []
  }

  /** The first decision of the default session: 485 points left after the ante of
      15, nothing rolled yet. */
  lemma FirstDecision(id: string)
    ensures FirstDecisionOfDefault(BeginFirstStage(ProceedToFirstTrial(NewSession(NoOptions, id))))
  {
  }

  /** A decision of the default session's first trial, every earlier stage held
      with a belief of 50 %. */
  predicate Midway(s: Session, stage: int, playerSum: int, houseSum: int)
  {
    && s.config.nStages == 3 && s.config.diceSides == 6 && s.config.ante == 15
    && s.phase == StageAction && s.stage == stage && s.wealth == 485 && s.bet == 15
    && s.playerSum == playerSum && s.houseSum == houseSum
    && s.trial.Some? && |s.trial.value.history| == stage - 1
    && (forall j :: 0 <= j < stage - 1 ==> s.trial.value.history[j].belief == Reported(0.5))
    && (stage > 1 ==> s.trial.value.history[0].wealthAvailable == 485)
    && s.accuracyScores == [] && s.log == []
  }

  lemma MidwayStep(s: Session, stage: int, playerSum: int, houseSum: int, pRoll: int, hRoll: int, log2: real --> real)
    requires forall x :: 0.0 < x ==> log2.requires(x)
    requires Midway(s, stage, playerSum, houseSum) && 1 <= stage < 3
    ensures Midway(HoldStage(s, 50.0, pRoll, hRoll, log2), stage + 1, playerSum + pRoll, houseSum + hRoll)
  {
    HoldStageAdvances(s, 50.0, pRoll, hRoll, log2);
    var r := HoldStage(s, 50.0, pRoll, hRoll, log2);
    var n := stage - 1;
    forall j | 0 <= j < stage
      ensures r.trial.value.history[j].belief == Reported(0.5)
    {
      if j < n {
        assert r.trial.value.history[j] == r.trial.value.history[..n][j];
      }
    }
    if stage > 1 {
      assert r.trial.value.history[0] == r.trial.value.history[..n][0];
    }
  }

  /** The third belief of the default session's first trial, after 7 against 7. */
  lemma ThirdBelief(s2: Session, log2: real --> real)
    requires forall x :: 0.0 < x ==> log2.requires(x)
    requires Midway(s2, 3, 7, 7)
    ensures var b := HandleBelief(HandleAction(s2, Hold), 50.0, 6, 1, log2);
      && b.trial.Some? && |b.trial.value.history| == 3
      && b.playerSum == 13 && b.houseSum == 8 && b.wealth == 485 && b.bet == 15
      && b.config == s2.config && b.accuracyScores == [] && b.log == []
      && b.trial.value.history[0].wealthAvailable == 485
      && (forall j :: 0 <= j < 3 ==> b.trial.value.history[j].belief == Reported(0.5))
  {
    HoldLastStage(s2, 50.0, 6, 1, log2);
    var b := HandleBelief(HandleAction(s2, Hold), 50.0, 6, 1, log2);
    var h := b.trial.value.history;
    forall j | 0 <= j < 3
      ensures h[j].belief == Reported(0.5)
    {
      if j < 2 {
        assert h[j] == h[..2][j];
      }
    }
    assert h[0] == h[..2][0];
  }

  /** Resolving 13 against 8 with a bet of 15 and three 50 % beliefs. */
  lemma ResolveWonTrial(b: Session)
    requires b.trial.Some? && |b.trial.value.history| == 3
    requires b.playerSum == 13 && b.houseSum == 8 && b.wealth == 485 && b.bet == 15
    requires b.config.ante == 15 && b.accuracyScores == [] && b.log == []
    requires b.trial.value.history[0].wealthAvailable == 485
    requires forall j :: 0 <= j < 3 ==> b.trial.value.history[j].belief == Reported(0.5)
    ensures var r := ResolveTrial(b);
      && r.phase == StageResult
      && r.lastOutcome == Some(Win) && r.lastPayout == 30
      && r.wealth == 515
      && r.accuracyScores == [0.75, 0.75]
      && |r.log| == 1 && r.log[0].wealthStart == 500 && r.log[0].wealthEnd == 515
      && |r.log[0].history| == 4
  {
    var h := b.trial.value.history;
    RelabelledAccuracies(h, 15, 1.0);
    assert Accuracies(h[..2], 1.0) == [0.75, 0.75] by {
      assert h[..2][..1] == [h[0]];
      assert [h[0]][..0] == [];
    }
  }

  /** Three held stages from the first decision of the default session. */
  lemma ThreeHeldStages(s0: Session, log2: real --> real)
    requires forall x :: 0.0 < x ==> log2.requires(x)
    requires FirstDecisionOfDefault(s0)
    ensures var s3 := HoldStage(HoldStage(HoldStage(s0, 50.0, 4, 2, log2), 50.0, 3, 5, log2), 50.0, 6, 1, log2);
      && s3.phase == StageResult
      && s3.lastOutcome == Some(Win) && s3.lastPayout == 30
      && s3.wealth == 515
      && s3.accuracyScores == [0.75, 0.75]
      && |s3.log| == 1 && s3.log[0].wealthStart == 500 && s3.log[0].wealthEnd == 515
      && |s3.log[0].history| == 4
  {
    assert Midway(s0, 1, 0, 0);
    MidwayStep(s0, 1, 0, 0, 4, 2, log2);
    var s1 := HoldStage(s0, 50.0, 4, 2, log2);
    MidwayStep(s1, 2, 4, 2, 3, 5, log2);
    var s2 := HoldStage(s1, 50.0, 3, 5, log2);
    ThirdBelief(s2, log2);
    HoldLastStage(s2, 50.0, 6, 1, log2);
    ResolveWonTrial(HandleBelief(HandleAction(s2, Hold), 50.0, 6, 1, log2));
  }

  /** Default session, one trial: won, the payout is twice the ante, wealth ends at
      500 − 15 + 30 = 515, the two scored beliefs have accuracy 0.75 each, and the
      logged trial has four snapshots. */
  lemma EndToEndTrial(id: string, log2: real --> real)
    requires forall x :: 0.0 < x ==> log2.requires(x)
    ensures var s0 := BeginFirstStage(ProceedToFirstTrial(NewSession(NoOptions, id)));
      var s3 := HoldStage(HoldStage(HoldStage(s0, 50.0, 4, 2, log2), 50.0, 3, 5, log2), 50.0, 6, 1, log2);
      && s3.wealth == 515 && s3.lastOutcome == Some(Win)
      && s3.accuracyScores == [0.75, 0.75] && |s3.log| == 1
  {
    FirstDecision(id);
    ThreeHeldStages(BeginFirstStage(ProceedToFirstTrial(NewSession(NoOptions, id))), log2);
  }

  /** A belief of 0.8 scores 0.04 (accuracy 0.96) against a win and 0.64 (accuracy
      0.36) against a loss. */
  lemma AccuracyScenario()
    ensures Brier(0.8, OutcomeValue(Win)) == 0.04 && 1.0 - Brier(0.8, OutcomeValue(Win)) == 0.96
    ensures Brier(0.8, OutcomeValue(Loss)) == 0.64 && 1.0 - Brier(0.8, OutcomeValue(Loss)) == 0.36
  {
  }

  /** A final wealth of 600 at a mean accuracy of 0.75 earns 4.50 on top of the 3.00
      base pay. */
  lemma PaymentScenario(s: Session)
    requires s.wealth == 600 && s.accuracyScores == [0.75]
    ensures EndExperiment(s).finalStats.value.finalWealth == 600
    ensures EndExperiment(s).finalStats.value.meanAccuracy == 0.75
    ensures EndExperiment(s).finalStats.value.performanceReward == 4.5
    ensures EndExperiment(s).finalStats.value.totalPayment == 7.5
  {
    assert Sum([0.75]) == 0.75 by {
      assert [0.75][..0] == [];
    }
  }

  /** With 10 points and the ante of 15 the trial still starts, leaving wealth at -5;
      the first belief report ends the experiment, with the final wealth floored at
      0, the base pay alone, and nothing logged. */
  lemma BankruptcyScenario(id: string, log2: real --> real)
    requires forall x :: 0.0 < x ==> log2.requires(x)
    ensures var s0 := ProceedToFirstTrial(NewSession(NoOptions.(startWealth := Some(10)), id));
      var s1 := HandleBelief(HandleAction(BeginFirstStage(s0), Hold), 50.0, 3, 4, log2);
      && s0.phase == TrialStart && s0.wealth == -5
      && s1.phase == End
      && s1.finalStats.value.finalWealth == 0
      && s1.finalStats.value.totalPayment == BasePay
      && s1.log == []
  {
    var s0 := ProceedToFirstTrial(NewSession(NoOptions.(startWealth := Some(10)), id));
    assert s0.wealth == -5;
    var s1 := HandleAction(BeginFirstStage(s0), Hold);
    assert s1.wealth == -5 && s1.accuracyScores == [];
  }

  /** The tie at 7 - 7 after two stages, decided now, goes to the house. */
  lemma TieGoesToHouse(sides: nat)
    requires 1 <= sides
    ensures Probabilities(7, 7, 0, sides) == WinLoss(0.0, 1.0)
    ensures Judge(7, 7) == Loss
  {
    NoStageLeft(7, 7, sides);
  }
}
