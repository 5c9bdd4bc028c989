/** What holds of every session the interface can drive: the invariant, its
    preservation by each entry point in the phase that offers it, and what follows
    from it for scoring, payment and export. */
module GameInvariant {
  import opened Sums
  import opened DiceMath
  import opened Records
  import opened TrialLog
  import opened Game

  /** Configurations with at least one stage and at least one face per die. */
  predicate Sane(c: Config)
  {
    1 <= c.nStages && 1 <= c.diceSides
  }

  predicate Playing(p: Phase)
  {
    p.TrialStart? || p.StageAction? || p.StageBelief? || p.StageInfo? || p.StageResult?
  }

  /** Every snapshot carries a reported belief in [0, 1]. */
  predicate Reports(h: seq<Snapshot>)
  {
    forall j :: 0 <= j < |h| ==> h[j].belief.Reported? && 0.0 <= h[j].belief.p <= 1.0
  }

  /** Every snapshot carries the ground truth of its own pre-roll sums: the race
      probabilities from pSum against hSum with remainingStages still to come. */
  predicate Frozen(h: seq<Snapshot>, sides: int)
  {
    forall j :: 0 <= j < |h| ==>
      && 0 <= h[j].remainingStages && 1 <= sides
      && h[j].probs == Probabilities(h[j].pSum, h[j].hSum, h[j].remainingStages, sides)
  }

  /** Every logged trial holds one snapshot per stage plus the relabelled copy, each
      with its frozen ground truth. */
  predicate Logged(log: seq<TrialRecord>, c: Config)
  {
    forall i :: 0 <= i < |log| ==>
      |log[i].history| == c.nStages + 1 && Frozen(log[i].history, c.diceSides)
  }

  /** How far a trial has come, by phase: the stage, the number of snapshots and the
      number of rolls. */
  predicate Progress(phase: Phase, stage: int, snapshots: nat, rolls: nat, nStages: int)
  {
    match phase
    case TrialStart => stage == 0 && snapshots == 0 && rolls == 0
    case StageAction => 1 <= stage <= nStages && snapshots == stage - 1 && rolls == stage - 1
    case StageBelief => 1 <= stage <= nStages && snapshots == stage - 1 && rolls == stage - 1
    case StageInfo => 1 <= stage <= nStages && snapshots == stage && rolls == stage
    case StageResult => stage == nStages && snapshots == nStages + 1 && rolls == nStages
    case _ => true
  }

  predicate TrialInv(s: Session)
  {
    && s.trial.Some?
    && s.trial.value.trialId == s.trialIndex + 1
    && s.trialIndex < s.config.nTrials
    && |s.playerRolls| == |s.houseRolls|
    && s.playerSum == SumInts(s.playerRolls)
    && s.houseSum == s.config.startingBias + SumInts(s.houseRolls)
    && Progress(s.phase, s.stage, |s.trial.value.history|, |s.playerRolls|, s.config.nStages)
    && (!s.phase.StageResult? ==> Reports(s.trial.value.history))
    && Frozen(s.trial.value.history, s.config.diceSides)
  }

  /** The part of the invariant that does not depend on a trial being under way. */
  predicate Base(s: Session)
  {
    && Sane(s.config)
    && s.totalScore == SumInts(s.answers)
    && 0 <= s.trialIndex
    && Within(s.accuracyScores, 0.0, 1.0)
    && Logged(s.log, s.config)
    && (s.phase.End? ==> s.finalStats.Some?)
  }

  predicate Inv(s: Session)
  {
    Base(s) && (Playing(s.phase) ==> TrialInv(s))
  }

  // ---- helpers ----

  lemma SumIntsSnoc(xs: seq<int>, x: int)
    ensures SumInts(xs + [x]) == SumInts(xs) + x
  {
    assert (xs + [x])[..|xs|] == xs;
  }

  lemma WithinAppend(a: seq<real>, b: seq<real>, lo: real, hi: real)
    requires Within(a, lo, hi) && Within(b, lo, hi)
    ensures Within(a + b, lo, hi)
  {
    forall i | 0 <= i < |a + b|
      ensures lo <= (a + b)[i] <= hi
    {
      if i >= |a| {
        assert (a + b)[i] == b[i - |a|];
      }
    }
  }

  // ---- scoring ----

  /** A belief in [0, 1] scored against a 0/1 outcome has accuracy in [0, 1]. */
  lemma AccuracyInRange(b: real, o: real)
    requires 0.0 <= b <= 1.0 && (o == 0.0 || o == 1.0)
    ensures 0.0 <= 1.0 - Brier(b, o) <= 1.0
  {
    var d := b - o;
    assert -1.0 <= d <= 1.0;
    if d >= 0.0 {
      assert d * d <= d * 1.0;
    } else {
      var e := -d;
      assert e * e <= e * 1.0;
      assert d * d == e * e;
    }
    assert Brier(b, o) == d * d;
  }

  lemma {:induction false} AccuraciesInRange(h: seq<Snapshot>, o: real)
    requires o == 0.0 || o == 1.0
    requires forall j :: 0 <= j < |h| && h[j].belief.Reported? ==> 0.0 <= h[j].belief.p <= 1.0
    ensures Within(Accuracies(h, o), 0.0, 1.0)
    decreases |h|
  {
    if |h| > 0 {
      var n := |h| - 1;
      assert forall j :: 0 <= j < n ==> h[..n][j] == h[j];
      AccuraciesInRange(h[..n], o);
      if h[n].belief.Reported? {
        AccuracyInRange(h[n].belief.p, o);
      }
      WithinAppend(Accuracies(h[..n], o),
                   if h[n].belief.Reported? then [1.0 - Brier(h[n].belief.p, o)] else [], 0.0, 1.0);
    }
  }

  /** When every snapshot reports a belief, each yields one accuracy. */
  lemma {:induction false} AccuraciesCount(h: seq<Snapshot>, o: real)
    requires forall j :: 0 <= j < |h| ==> h[j].belief.Reported?
    ensures |Accuracies(h, o)| == |h|
    decreases |h|
  {
    if |h| > 0 {
      var n := |h| - 1;
      assert forall j :: 0 <= j < n ==> h[..n][j] == h[j];
      AccuraciesCount(h[..n], o);
    }
  }

  /** The accuracies pushed onto the session's list are exactly the accuracy values
      the scoring stores on the steps, in history order. */
  lemma {:induction false} AccuraciesAreStored(h: seq<Snapshot>, o: real)
    ensures Accuracies(h, o) == StoredAccuracies(ScoreAll(h, o))
    decreases |h|
  {
    if |h| > 0 {
      var n := |h| - 1;
      var scored := ScoreAll(h, o);
      assert scored[..n] == ScoreAll(h[..n], o);
      AccuraciesAreStored(h[..n], o);
    }
  }

  /** Resolution scores every reported belief except the last one: that snapshot is
      relabelled "N/A" before scoring, so its belief is lost. */
  lemma RelabelledAccuracies(h: seq<Snapshot>, bet: int, o: real)
    requires |h| > 0 && forall j :: 0 <= j < |h| ==> h[j].belief.Reported?
    ensures Accuracies(Relabel(h, bet), o) == Accuracies(h[..|h| - 1], o)
    ensures |Accuracies(Relabel(h, bet), o)| == |h| - 1
  {
    var n := |h| - 1;
    var r := Relabel(h, bet);
    assert r[..n + 1][..n] == h[..n];
    assert r[..n + 1][n].belief == BeliefNA;
    assert forall j :: 0 <= j < n ==> h[..n][j] == h[j];
    AccuraciesCount(h[..n], o);
  }

  /** The expected Brier score under a true win probability q is the squared
      distance of the report from q plus a term that does not depend on the report. */
  lemma BrierIsProper(b: real, q: real)
    ensures q * Brier(b, 1.0) + (1.0 - q) * Brier(b, 0.0) == Brier(b, q) + q * (1.0 - q)
  {
  }

  /** Reporting the true probability minimises the expected Brier score. */
  lemma TruthMinimisesBrier(b: real, q: real)
    ensures q * Brier(q, 1.0) + (1.0 - q) * Brier(q, 0.0) <= q * Brier(b, 1.0) + (1.0 - q) * Brier(b, 0.0)
  {
    BrierIsProper(b, q);
    BrierIsProper(q, q);
  }

  // ---- preservation, entry point by entry point ----

  lemma NewSessionInv(opts: Options, generatedId: string)
    ensures Sane(NewSession(opts, generatedId).config) ==> Inv(NewSession(opts, generatedId))
  {
  }

  lemma StartKeepsInv(s: Session)
    requires Inv(s)
    ensures Inv(Start(s))
  {
  }

  lemma StartQuestionnaireKeepsInv(s: Session)
    requires Inv(s) && s.phase.Welcome?
    ensures Inv(StartQuestionnaire(s))
  {
  }

  /** The running questionnaire score stays the sum of the answers given. */
  lemma AnswerKeepsInv(s: Session, value: int)
    requires Inv(s)
    ensures Inv(AnswerQuestion(s, value))
  {
    SumIntsSnoc(s.answers, value);
  }

  lemma EndExperimentKeepsInv(s: Session)
    requires Base(s)
    ensures Inv(EndExperiment(s))
  {
  }

  lemma StartTrialKeepsInv(s: Session)
    requires Base(s)
    ensures Inv(StartTrial(s))
  {
    if s.trialIndex >= s.config.nTrials {
      EndExperimentKeepsInv(s);
    }
  }

  lemma BeginFirstStageKeepsInv(s: Session)
    requires Inv(s) && s.phase.TrialStart?
    ensures Inv(BeginFirstStage(s))
  {
  }

  lemma HandleActionKeepsInv(s: Session, a: Action)
    requires Inv(s) && s.phase.StageAction?
    ensures Inv(HandleAction(s, a))
  {
  }

  lemma HandleBeliefKeepsInv(s: Session, value: real, pRoll: int, hRoll: int, log2: real --> real)
    requires Inv(s) && s.phase.StageBelief? && 0.0 <= value <= 100.0
    requires forall x :: 0.0 < x ==> log2.requires(x)
    ensures Inv(HandleBelief(s, value, pRoll, hRoll, log2))
  {
    var s1 := Record(s, value, log2);
    ReportsSnoc(s.trial.value.history, TakeSnapshot(s, value / 100.0, log2));
    FrozenSnoc(s.trial.value.history, TakeSnapshot(s, value / 100.0, log2), s.config.diceSides);
    if s1.wealth < 0 {
      EndExperimentKeepsInv(s1);
    } else {
      RollKeepsInv(s1, pRoll, hRoll);
    }
  }

  lemma ReportsSnoc(h: seq<Snapshot>, snap: Snapshot)
    requires Reports(h) && snap.belief.Reported? && 0.0 <= snap.belief.p <= 1.0
    ensures Reports(h + [snap])
  {
    assert forall j :: 0 <= j < |h| ==> (h + [snap])[j] == h[j];
  }

  lemma FrozenSnoc(h: seq<Snapshot>, snap: Snapshot, sides: int)
    requires Frozen(h, sides) && 0 <= snap.remainingStages && 1 <= sides
    requires snap.probs == Probabilities(snap.pSum, snap.hSum, snap.remainingStages, sides)
    ensures Frozen(h + [snap], sides)
  {
    assert forall j :: 0 <= j < |h| ==> (h + [snap])[j] == h[j];
  }

  /** The roll fills in only the roll fields, so the ground truth stays frozen. */
  lemma FrozenAfterRoll(s: Session, pRoll: int, hRoll: int)
    requires s.trial.Some? && Frozen(s.trial.value.history, s.config.diceSides)
    ensures Frozen(Roll(s, pRoll, hRoll).trial.value.history, s.config.diceSides)
  {
    var h := s.trial.value.history;
    var h' := Roll(s, pRoll, hRoll).trial.value.history;
    forall j | 0 <= j < |h'|
      ensures h'[j].probs == h[j].probs && h'[j].pSum == h[j].pSum
      ensures h'[j].hSum == h[j].hSum && h'[j].remainingStages == h[j].remainingStages
    {
    }
  }

  /** Rolling after a belief was recorded reaches the stage's information screen. */
  lemma RollKeepsInv(s: Session, pRoll: int, hRoll: int)
    requires Base(s) && s.phase.StageBelief? && s.trial.Some?
    requires s.trial.value.trialId == s.trialIndex + 1 && s.trialIndex < s.config.nTrials
    requires |s.playerRolls| == |s.houseRolls|
    requires s.playerSum == SumInts(s.playerRolls)
    requires s.houseSum == s.config.startingBias + SumInts(s.houseRolls)
    requires 1 <= s.stage <= s.config.nStages
    requires |s.trial.value.history| == s.stage && |s.playerRolls| == s.stage - 1
    requires Reports(s.trial.value.history) && Frozen(s.trial.value.history, s.config.diceSides)
    ensures Inv(Roll(s, pRoll, hRoll))
  {
    var r := Roll(s, pRoll, hRoll);
    FrozenAfterRoll(s, pRoll, hRoll);
    SumIntsSnoc(s.playerRolls, pRoll);
    SumIntsSnoc(s.houseRolls, hRoll);
    assert Reports(r.trial.value.history);
  }

  lemma AcknowledgeKeepsInv(s: Session)
    requires Inv(s) && s.phase.StageInfo?
    ensures Inv(AcknowledgeInfo(s))
  {
    if s.stage >= s.config.nStages {
      var h := s.trial.value.history;
      var o := OutcomeValue(Judge(s.playerSum, s.houseSum));
      var rel := Relabel(h, s.bet);
      assert forall j :: 0 <= j < |rel| && rel[j].belief.Reported? ==> j < |h| - 1 && rel[j] == h[j];
      AccuraciesInRange(rel, o);
      WithinAppend(s.accuracyScores, Accuracies(rel, o), 0.0, 1.0);
      var r := ResolveTrial(s);
      assert r.log == s.log + [r.log[|s.log|]];
    }
  }

  lemma EndTrialKeepsInv(s: Session)
    requires Inv(s) && s.phase.StageResult?
    ensures Inv(EndTrial(s))
  {
    StartTrialKeepsInv(s.(trialIndex := s.trialIndex + 1));
  }

  // ---- the interface as events ----

  /** The inputs the interface delivers: a questionnaire answer is 0-3, a belief is
      a slider value 0-100, and the two rolls of a stage are faces of the die. */
  datatype Event =
    | Begin
    | OpenQuestionnaire
    | Answer(answer: int)
    | Proceed
    | TimerFired
    | Act(action: Action)
    | Believe(value: real, pRoll: int, hRoll: int)
    | Acknowledge
    | NextTrial

  /** The phase in which the interface offers each input. */
  predicate Enabled(s: Session, e: Event)
  {
    match e
    case Begin => true
    case OpenQuestionnaire => s.phase.Welcome?
    case Answer(v) => s.phase.Questionnaire? && 0 <= v <= 3
    case Proceed => s.phase.Instructions?
    case TimerFired => s.phase.TrialStart?
    case Act(_) => s.phase.StageAction?
    case Believe(v, p, h) =>
      s.phase.StageBelief? && 0.0 <= v <= 100.0
      && 1 <= p <= s.config.diceSides && 1 <= h <= s.config.diceSides
    case Acknowledge => s.phase.StageInfo?
    case NextTrial => s.phase.StageResult?
  }

  /** One input applied through the entry point it calls. */
  function Step(s: Session, e: Event, log2: real --> real): (r: Session)
    requires Inv(s) && Enabled(s, e)
    requires forall x :: 0.0 < x ==> log2.requires(x)
    ensures Inv(r)
  {
    match e
    case Begin =>
      StartKeepsInv(s);
      Start(s)
    case OpenQuestionnaire =>
      StartQuestionnaireKeepsInv(s);
      StartQuestionnaire(s)
    case Answer(v) =>
      AnswerKeepsInv(s, v);
      AnswerQuestion(s, v)
    case Proceed =>
      StartTrialKeepsInv(s);
      ProceedToFirstTrial(s)
    case TimerFired =>
      BeginFirstStageKeepsInv(s);
      BeginFirstStage(s)
    case Act(a) =>
      HandleActionKeepsInv(s, a);
      HandleAction(s, a)
    case Believe(v, p, h) =>
      HandleBeliefKeepsInv(s, v, p, h, log2);
      HandleBelief(s, v, p, h, log2)
    case Acknowledge =>
      AcknowledgeKeepsInv(s);
      AcknowledgeInfo(s)
    case NextTrial =>
      EndTrialKeepsInv(s);
      EndTrial(s)
  }

  /** A run of inputs; an input the current phase does not offer is ignored. */
  function Run(s: Session, events: seq<Event>, log2: real --> real): (r: Session)
    requires Inv(s)
    requires forall x :: 0.0 < x ==> log2.requires(x)
    ensures Inv(r)
    decreases |events|
  {
    if |events| == 0 then s
    else
      var next := if Enabled(s, events[0]) then Step(s, events[0], log2) else s;
      Run(next, events[1..], log2)
  }

  // ---- consequences ----

  lemma {:induction false} LoggedSteps(log: seq<TrialRecord>, c: Config)
    requires Logged(log, c)
    ensures TotalSteps(log) == |log| * (c.nStages + 1)
    decreases |log|
  {
    if |log| > 0 {
      LoggedSteps(log[..|log| - 1], c);
    }
  }

  /** In every reachable session the export either has nothing to do or produces one
      row per stage and trial plus the relabelled copy; it never reaches the case
      where trials exist but rows do not. */
  lemma ExportNeverThrows(s: Session, encode: Value -> string)
    requires Inv(s)
    ensures !ExportToCsv(s.log, encode).NoRowsThrows?
    ensures ExportToCsv(s.log, encode).Csv? ==> |ExportToCsv(s.log, encode).rows| == |s.log| * (s.config.nStages + 1)
  {
    LoggedSteps(s.log, s.config);
  }

  lemma MeanInRange(xs: seq<real>)
    requires Within(xs, 0.0, 1.0)
    ensures 0.0 <= Mean(xs) <= 1.0
  {
    if |xs| > 0 {
      SumBounds(xs, 0.0, 1.0);
      var n := |xs| as real;
      assert 0.0 <= Sum(xs) <= n;
      assert Mean(xs) == Sum(xs) / n;
    }
  }

  lemma RewardBelow(w: real, m: real, reward: real)
    requires 0.0 <= w && 0.0 <= m <= 1.0 && 100.0 * reward == w * m
    ensures 0.0 <= reward <= w / 100.0
  {
    assert w * m <= w * 1.0;
  }

  /** With every accuracy in [0, 1], the total payment is the base pay plus at most
      one hundredth of the final wealth. */
  lemma PaymentBounds(s: Session)
    requires Base(s)
    ensures var f := EndExperiment(s).finalStats.value;
      BasePay <= f.totalPayment <= BasePay + f.finalWealth as real / 100.0
  {
    var r := EndExperiment(s);
    var f := r.finalStats.value;
    MeanInRange(s.accuracyScores);
    RewardBelow(f.finalWealth as real, f.meanAccuracy, f.performanceReward);
  }

  /** At the end every exported row carries the final payment. */
  lemma ExportedRowsCarryPayment(s: Session, i: nat, j: nat)
    requires Inv(s)
    requires i < |s.log| && j < |s.log[i].history|
    ensures var r := EndExperiment(s);
      var f := r.finalStats.value;
      && Offset(r.log, i) + j < |Rows(r.log)|
      && Rows(r.log)[Offset(r.log, i) + j].totalPayment == Number(f.totalPayment)
      && Rows(r.log)[Offset(r.log, i) + j].performanceReward == Number(f.performanceReward)
  {
    var r := EndExperiment(s);
    RowAt(r.log, i, j);
  }

  /** Every exported row's win and loss probabilities are the race probabilities of
      that same row's pre-roll sums and remaining stages. */
  lemma ExportedRowsCarryGroundTruth(s: Session, i: nat, j: nat)
    requires Inv(s)
    requires i < |s.log| && j < |s.log[i].history|
    ensures var step := s.log[i].history[j];
      && Offset(s.log, i) + j < |Rows(s.log)|
      && 0 <= step.remainingStages
      && var row := Rows(s.log)[Offset(s.log, i) + j];
      && row.pSum == Whole(step.pSum) && row.hSum == Whole(step.hSum)
      && row.remainingStages == Whole(step.remainingStages)
      && row.winProb == Number(Probabilities(step.pSum, step.hSum, step.remainingStages, s.config.diceSides).win)
      && row.lossProb == Number(Probabilities(step.pSum, step.hSum, step.remainingStages, s.config.diceSides).loss)
  {
    RowAt(s.log, i, j);
  }

  /** Resolving a trial of n stages adds n - 1 accuracies: the n-th reported belief
      is never scored, and both copies of the final snapshot are exported unscored. */
  lemma LastBeliefNeverScored(s: Session)
    requires Inv(s) && s.phase.StageInfo? && s.stage == s.config.nStages
    ensures var r := AcknowledgeInfo(s);
      && |r.accuracyScores| == |s.accuracyScores| + s.config.nStages - 1
      && |r.trial.value.history| == s.config.nStages + 1
      && r.trial.value.history[s.config.nStages - 1].brier.None?
      && r.trial.value.history[s.config.nStages].brier.None?
  {
    var h := s.trial.value.history;
    var o := OutcomeValue(Judge(s.playerSum, s.houseSum));
    RelabelledAccuracies(h, s.bet, o);
  }

  /** Without a guard, a second acknowledgement in a row advances the stage again:
      one decision is skipped and the session leaves the invariant (a snapshot is
      missing for the skipped stage). */
  lemma DoubleAcknowledgeSkipsDecision(s: Session)
    requires Inv(s) && s.phase.StageInfo? && s.stage + 1 < s.config.nStages
    ensures var r := AcknowledgeInfo(AcknowledgeInfo(s));
      && r.phase.StageAction? && r.stage == s.stage + 2
      && |r.trial.value.history| == s.stage
      && !Inv(r)
  {
  }

  // ---- the missing Brier-score function ----

  /** As written, resolving a trial of two or more stages throws: the first snapshot
      already carries a reported belief. The payout has been credited, but no
      accuracy is recorded and the trial is not logged. */
  lemma ResolveAsWrittenThrows(s: Session)
    requires Inv(s) && s.phase.StageInfo? && s.stage == s.config.nStages && 2 <= s.config.nStages
    ensures ResolveTrialAsWritten(s).Threw?
    ensures ResolveTrialAsWritten(s).at.log == s.log
    ensures ResolveTrialAsWritten(s).at.accuracyScores == s.accuracyScores
    ensures ResolveTrial(s).log != s.log
  {
    var h := s.trial.value.history;
    var rel := Relabel(h, s.bet);
    assert rel[0] == h[0];
    assert FirstReported(rel) == 0;
    assert |ResolveTrial(s).log| == |s.log| + 1;
  }

  /** As written, a single-stage trial resolves: its one belief is relabelled "N/A"
      before scoring, so the missing function is never reached. */
  lemma ResolveAsWrittenSingleStage(s: Session)
    requires Inv(s) && s.phase.StageInfo? && s.stage == s.config.nStages == 1
    ensures ResolveTrialAsWritten(s) == Resolved(ResolveTrial(s))
  {
    var rel := Relabel(s.trial.value.history, s.bet);
    assert !rel[0].belief.Reported? && !rel[1].belief.Reported?;
  }
}
