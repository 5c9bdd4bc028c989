/** The records the game session writes and the trial log keeps: one snapshot per
    belief elicitation, and one trial record per resolved trial (js/game.js:406-421,
    478-485, 523-527). */
module Records {
  import opened DiceMath

  datatype Option<T> = None | Some(value: T)

  /** The three moves offered at a decision point. */
  datatype Action = Retract | Hold | Add

  /** The action column of a snapshot: nothing chosen yet (the session's initial
      null), the recorded action, or "N/A" once the trial resolution relabels the
      final snapshot. */
  datatype ActionMark = NoAction | Took(action: Action) | ActionNA

  /** The belief column: a reported probability in [0, 1] (the slider value / 100),
      or "N/A" on the relabelled final snapshot. */
  datatype BeliefMark = Reported(p: real) | BeliefNA

  /** One decision point of a trial. The ground truth (probs, entropy) is computed
      from the sums before the roll; the roll fields are filled after it, and the
      scores at trial resolution. An absent score is the source's null. */
  datatype Snapshot = Snapshot(
    trialId: int,
    stage: int,
    pRoll: Option<int>,
    hRoll: Option<int>,
    pSum: int,
    hSum: int,
    wealthAvailable: int,
    currentBet: int,
    remainingStages: int,
    probs: WinLoss,
    entropy: real,
    action: ActionMark,
    belief: BeliefMark,
    betAfterAction: int,
    pSumAfterRoll: Option<int>,
    hSumAfterRoll: Option<int>,
    brier: Option<real>,
    accuracy: Option<real>)

  /** The final numbers written onto every logged trial when the experiment ends. */
  datatype Payment = Payment(performanceReward: real, totalPayment: real, meanAccuracy: real)

  /** A resolved trial as handed to the log. */
  datatype TrialRecord = TrialRecord(
    participant: string,
    trialId: int,
    outcome: Outcome,
    wealthStart: int,
    wealthEnd: int,
    history: seq<Snapshot>,
    payment: Option<Payment>)
}
