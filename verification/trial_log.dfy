/** The trial log: resolved trials in the order they were logged, flattened into one
    row per snapshot for the CSV export (js/logger.js:6-69). The browser download at
    the end of the export is left out; the export yields the header, the rows and
    the CSV text. */
module TrialLog {
  import opened DiceMath
  import opened Records

  /** Logging appends the record and leaves every earlier record in place. */
  function LogTrial(trials: seq<TrialRecord>, t: TrialRecord): (r: seq<TrialRecord>)
    ensures |r| == |trials| + 1
    ensures r[..|trials|] == trials && r[|trials|] == t
  {
    trials + [t]
  }

  /** A CSV cell before encoding: text, a whole number, a real, the source's null, or
      a property the record does not have (undefined, rendered as an empty cell). */
  datatype Value = Text(text: string) | Whole(n: int) | Number(x: real) | Null | Missing

  /** One exported row: the trial's columns followed by the snapshot's columns. */
  datatype Row = Row(
    participantNumber: Value,
    trialId: Value,
    stage: Value,
    outcome: Value,
    wealthStart: Value,
    wealthEnd: Value,
    pRoll: Value,
    hRoll: Value,
    pSum: Value,
    hSum: Value,
    wealthAvailable: Value,
    currentBet: Value,
    remainingStages: Value,
    winProb: Value,
    lossProb: Value,
    entropy: Value,
    actionTaken: Value,
    beliefReported: Value,
    betAfterAction: Value,
    brierScore: Value,
    accuracyScore: Value,
    performanceReward: Value,
    totalPayment: Value)

  /** The column names, in the order the row object declares them. */
  const Header: seq<string> := [
    "participant_number", "trial_id", "stage", "outcome", "wealth_start", "wealth_end",
    "p_roll", "h_roll", "p_sum", "h_sum", "wealth_available", "current_bet",
    "remaining_stages", "win_prob", "loss_prob", "entropy", "action_taken",
    "belief_reported", "bet_after_action", "brier_score", "accuracy_score",
    "performance_reward", "total_payment"]

  /** The row's cells in header order. */
  function Cells(r: Row): (c: seq<Value>)
    ensures |c| == |Header|
  {
    [r.participantNumber, r.trialId, r.stage, r.outcome, r.wealthStart, r.wealthEnd,
     r.pRoll, r.hRoll, r.pSum, r.hSum, r.wealthAvailable, r.currentBet,
     r.remainingStages, r.winProb, r.lossProb, r.entropy, r.actionTaken,
     r.beliefReported, r.betAfterAction, r.brierScore, r.accuracyScore,
     r.performanceReward, r.totalPayment]
  }

  function OutcomeText(o: Outcome): string
  {
    match o
    case Win => "WIN"
    case Loss => "LOSS"
  }

  function ActionText(a: Action): string
  {
    match a
    case Retract => "retract"
    case Hold => "hold"
    case Add => "add"
  }

  function ActionValue(m: ActionMark): Value
  {
    match m
    case NoAction => Null
    case Took(a) => Text(ActionText(a))
    case ActionNA => Text("N/A")
  }

  function BeliefValue(m: BeliefMark): Value
  {
    match m
    case Reported(p) => Number(p)
    case BeliefNA => Text("N/A")
  }

  function WholeOrNull(v: Option<int>): Value
  {
    match v
    case None => Null
    case Some(n) => Whole(n)
  }

  function NumberOrNull(v: Option<real>): Value
  {
    match v
    case None => Null
    case Some(x) => Number(x)
  }

  /** Payment columns are absent until the experiment ends. */
  function PaymentValue(p: Option<Payment>, total: bool): Value
  {
    match p
    case None => Missing
    case Some(pay) => Number(if total then pay.totalPayment else pay.performanceReward)
  }

  function MakeRow(t: TrialRecord, step: Snapshot): Row
  {
    Row(Text(t.participant), Whole(t.trialId), Whole(step.stage), Text(OutcomeText(t.outcome)),
        Whole(t.wealthStart), Whole(t.wealthEnd),
        WholeOrNull(step.pRoll), WholeOrNull(step.hRoll), Whole(step.pSum), Whole(step.hSum),
        Whole(step.wealthAvailable), Whole(step.currentBet), Whole(step.remainingStages),
        Number(step.probs.win), Number(step.probs.loss), Number(step.entropy),
        ActionValue(step.action), BeliefValue(step.belief), Whole(step.betAfterAction),
        NumberOrNull(step.brier), NumberOrNull(step.accuracy),
        PaymentValue(t.payment, false), PaymentValue(t.payment, true))
  }

  /** The rows of one trial, one per snapshot, in history order. */
  function TrialRows(t: TrialRecord): (rows: seq<Row>)
    ensures |rows| == |t.history|
  {
    seq(|t.history|, j requires 0 <= j < |t.history| => MakeRow(t, t.history[j]))
  }

  /** Number of snapshots over all logged trials. */
  function TotalSteps(trials: seq<TrialRecord>): nat
    decreases |trials|
  {
    if |trials| == 0 then 0 else TotalSteps(trials[..|trials| - 1]) + |trials[|trials| - 1].history|
  }

  /** The flattened rows: trials in log order, each trial's snapshots in history order. */
  function Rows(trials: seq<TrialRecord>): seq<Row>
    decreases |trials|
  {
    if |trials| == 0 then [] else Rows(trials[..|trials| - 1]) + TrialRows(trials[|trials| - 1])
  }

  /** Index of the first row of trial i. */
  function Offset(trials: seq<TrialRecord>, i: nat): nat
    requires i <= |trials|
  {
    TotalSteps(trials[..i])
  }

  lemma {:induction false} RowsLength(trials: seq<TrialRecord>)
    ensures |Rows(trials)| == TotalSteps(trials)
    decreases |trials|
  {
    if |trials| > 0 {
      RowsLength(trials[..|trials| - 1]);
    }
  }

  /** Logging a trial and then exporting adds exactly that trial's rows at the end. */
  lemma LoggedRowsAppend(trials: seq<TrialRecord>, t: TrialRecord)
    ensures Rows(LogTrial(trials, t)) == Rows(trials) + TrialRows(t)
    ensures TotalSteps(LogTrial(trials, t)) == TotalSteps(trials) + |t.history|
  {
    assert LogTrial(trials, t)[..|trials|] == trials;
  }

  /** Snapshot j of trial i is exported at row Offset(i) + j, carrying the trial's
      columns and the snapshot's own columns. */
  lemma {:induction false} RowAt(trials: seq<TrialRecord>, i: nat, j: nat)
    requires i < |trials| && j < |trials[i].history|
    ensures Offset(trials, i) + j < |Rows(trials)|
    ensures Rows(trials)[Offset(trials, i) + j] == MakeRow(trials[i], trials[i].history[j])
    ensures Rows(trials)[Offset(trials, i) + j].participantNumber == Text(trials[i].participant)
    ensures Rows(trials)[Offset(trials, i) + j].trialId == Whole(trials[i].trialId)
    ensures Rows(trials)[Offset(trials, i) + j].stage == Whole(trials[i].history[j].stage)
    ensures Rows(trials)[Offset(trials, i) + j].winProb == Number(trials[i].history[j].probs.win)
    ensures Rows(trials)[Offset(trials, i) + j].lossProb == Number(trials[i].history[j].probs.loss)
    decreases |trials|
  {
    var n := |trials| - 1;
    var init := trials[..n];
    RowsLength(init);
    if i == n {
      assert trials[..i] == init;
    } else {
      assert init[..i] == trials[..i];
      assert init[i] == trials[i];
      RowAt(init, i, j);
    }
  }

  // ---- CSV text ----

  /** Joining with a separator, as Array.prototype.join does. */
  function Join(parts: seq<string>, sep: char): string
    decreases |parts|
  {
    if |parts| == 0 then ""
    else if |parts| == 1 then parts[0]
    else Join(parts[..|parts| - 1], sep) + [sep] + parts[|parts| - 1]
  }

  function LastIndex(s: string, c: char): (k: nat)
    requires c in s
    ensures k < |s| && s[k] == c && c !in s[k + 1..]
    decreases |s|
  {
    if s[|s| - 1] == c then |s| - 1
    else
      assert c in s[..|s| - 1] by {
        var i :| 0 <= i < |s| && s[i] == c;
        assert s[..|s| - 1][i] == c;
      }
      LastIndex(s[..|s| - 1], c)
  }

  /** Splitting at every separator: the reader's view of a joined line. */
  function Split(s: string, sep: char): (parts: seq<string>)
    ensures |parts| >= 1
    decreases |s|
  {
    if sep !in s then [s]
    else
      var k := LastIndex(s, sep);
      Split(s[..k], sep) + [s[k + 1..]]
  }

  predicate FreeOf(parts: seq<string>, sep: char)
  {
    forall i :: 0 <= i < |parts| ==> sep !in parts[i]
  }

  /** The last separator of front + [sep] + x, with x free of it, is the one added. */
  lemma {:induction false} LastSeparator(front: string, x: string, sep: char)
    requires sep !in x
    ensures LastIndex(front + [sep] + x, sep) == |front|
    decreases |x|
  {
    var s := front + [sep] + x;
    if |x| > 0 {
      var n := |x| - 1;
      assert s[|s| - 1] == x[n];
      assert s[..|s| - 1] == front + [sep] + x[..n];
      assert sep in s[..|s| - 1] by {
        assert s[..|s| - 1][|front|] == sep;
      }
      assert sep !in x[..n] by {
        assert forall i :: 0 <= i < n ==> x[..n][i] == x[i];
      }
      LastSeparator(front, x[..n], sep);
    }
  }

  /** Appending a separator and a piece free of it adds exactly that piece. */
  lemma SplitStep(front: string, x: string, sep: char)
    requires sep !in x
    ensures Split(front + [sep] + x, sep) == Split(front, sep) + [x]
  {
    var s := front + [sep] + x;
    LastSeparator(front, x, sep);
    assert sep in s by { assert s[|front|] == sep; }
    assert s[..|front|] == front;
    assert s[|front| + 1..] == x;
  }

  /** Splitting a joined line gives back its cells, when no cell holds the separator. */
  lemma {:induction false} SplitJoin(parts: seq<string>, sep: char)
    requires |parts| >= 1 && FreeOf(parts, sep)
    ensures Split(Join(parts, sep), sep) == parts
    decreases |parts|
  {
    if |parts| > 1 {
      var n := |parts| - 1;
      assert FreeOf(parts[..n], sep) by {
        assert forall i :: 0 <= i < n ==> parts[..n][i] == parts[i];
      }
      SplitJoin(parts[..n], sep);
      SplitStep(Join(parts[..n], sep), parts[n], sep);
      assert parts[..n] + [parts[n]] == parts;
    }
  }

  function EncodeAll(cells: seq<Value>, encode: Value -> string): (out: seq<string>)
    ensures |out| == |cells|
  {
    seq(|cells|, i requires 0 <= i < |cells| => encode(cells[i]))
  }

  /** One data line: the row's cells in header order, encoded and comma-joined. */
  function CsvLine(r: Row, encode: Value -> string): string
  {
    Join(EncodeAll(Cells(r), encode), ',')
  }

  /** The export text: the header line, then one line per row, newline-joined. */
  function CsvText(rows: seq<Row>, encode: Value -> string): string
  {
    Join([Join(Header, ',')] + seq(|rows|, i requires 0 <= i < |rows| => CsvLine(rows[i], encode)), '\n')
  }

  /** The result of an export request. With no trials logged the export does
      nothing; with trials but no snapshots reading the first row's keys throws. */
  datatype Export = NothingLogged | NoRowsThrows | Csv(header: seq<string>, rows: seq<Row>, text: string)

  function ExportToCsv(trials: seq<TrialRecord>, encode: Value -> string): (e: Export)
    ensures e.NothingLogged? <==> |trials| == 0
    ensures e.NoRowsThrows? <==> 0 < |trials| && TotalSteps(trials) == 0
    ensures e.Csv? ==> e.header == Header && |e.rows| == TotalSteps(trials) > 0
  {
    RowsLength(trials);
    if |trials| == 0 then NothingLogged
    else
      var rows := Rows(trials);
      if |rows| == 0 then NoRowsThrows
      else Csv(Header, rows, CsvText(rows, encode))
  }

  /** No column name holds a comma or a newline. */
  lemma HeaderIsPlain()
    ensures FreeOf(Header, ',') && FreeOf(Header, '\n')
  {
    forall i | 0 <= i < |Header|
      ensures ',' !in Header[i] && '\n' !in Header[i]
    {
      assert forall j :: 0 <= j < |Header[i]| ==> 'a' <= Header[i][j] <= 'z' || Header[i][j] == '_';
    }
  }

  /** The lines of the export text, header first. */
  function CsvLines(rows: seq<Row>, encode: Value -> string): (lines: seq<string>)
    ensures |lines| == |rows| + 1
    ensures CsvText(rows, encode) == Join(lines, '\n')
  {
    [Join(Header, ',')] + seq(|rows|, i requires 0 <= i < |rows| => CsvLine(rows[i], encode))
  }

  /** No encoded cell of the exported rows holds a comma or a newline. This is a
      condition on the cells actually exported, not on the encoder: a quoting
      encoder keeps a comma inside a quoted string, but a generated participant
      id, the outcome and action words and the numbers of a row hold none. */
  predicate PlainCells(rows: seq<Row>, encode: Value -> string)
  {
    forall i :: 0 <= i < |rows| ==>
      FreeOf(EncodeAll(Cells(rows[i]), encode), ',') && FreeOf(EncodeAll(Cells(rows[i]), encode), '\n')
  }

  /** Splitting the CSV text at newlines and then at commas gives back the header
      names and each row's encoded cells, when no exported cell holds a comma or a
      newline. */
  lemma CsvReadsBack(rows: seq<Row>, encode: Value -> string, k: nat)
    requires PlainCells(rows, encode)
    requires k < |rows|
    ensures Split(CsvText(rows, encode), '\n') == CsvLines(rows, encode)
    ensures Split(CsvLines(rows, encode)[0], ',') == Header
    ensures Split(CsvLines(rows, encode)[k + 1], ',') == EncodeAll(Cells(rows[k]), encode)
  {
    LinesArePlain(rows, encode);
    SplitJoin(CsvLines(rows, encode), '\n');
    HeaderLineReadsBack(rows, encode);
    RowLineReadsBack(rows, encode, k);
  }

  /** The header line splits back into the column names. */
  lemma HeaderLineReadsBack(rows: seq<Row>, encode: Value -> string)
    ensures Split(CsvLines(rows, encode)[0], ',') == Header
  {
    HeaderIsPlain();
    SplitJoin(Header, ',');
  }

  /** The line after the header that belongs to row k splits back into its cells. */
  lemma RowLineReadsBack(rows: seq<Row>, encode: Value -> string, k: nat)
    requires PlainCells(rows, encode)
    requires k < |rows|
    ensures Split(CsvLines(rows, encode)[k + 1], ',') == EncodeAll(Cells(rows[k]), encode)
  {
    assert CsvLines(rows, encode)[k + 1] == CsvLine(rows[k], encode);
    SplitJoin(EncodeAll(Cells(rows[k]), encode), ',');
  }

  /** No line of the export holds a newline. */
  lemma LinesArePlain(rows: seq<Row>, encode: Value -> string)
    requires PlainCells(rows, encode)
    ensures FreeOf(CsvLines(rows, encode), '\n')
  {
    var lines := CsvLines(rows, encode);
    HeaderIsPlain();
    JoinFreeOf(Header, ',', '\n');
    forall i | 0 <= i < |lines|
      ensures '\n' !in lines[i]
    {
      if i > 0 {
        JoinFreeOf(EncodeAll(Cells(rows[i - 1]), encode), ',', '\n');
      }
    }
  }

  /** A reader of the export gets back one line per logged snapshot after the header
      line, and every data line has one cell per column name, when no exported cell
      holds a comma or a newline. */
  lemma ExportReadsBack(trials: seq<TrialRecord>, encode: Value -> string, k: nat)
    requires ExportToCsv(trials, encode).Csv?
    requires PlainCells(Rows(trials), encode)
    requires k < TotalSteps(trials)
    ensures |Split(ExportToCsv(trials, encode).text, '\n')| == TotalSteps(trials) + 1
    ensures Split(Split(ExportToCsv(trials, encode).text, '\n')[0], ',') == Header
    ensures Split(Split(ExportToCsv(trials, encode).text, '\n')[k + 1], ',')
         == EncodeAll(Cells(Rows(trials)[k]), encode)
  {
    RowsLength(trials);
    CsvReadsBack(Rows(trials), encode, k);
  }

  /** Joining parts that are free of a character other than the separator keeps the
      result free of it. */
  lemma {:induction false} JoinFreeOf(parts: seq<string>, sep: char, c: char)
    requires FreeOf(parts, c) && sep != c
    ensures c !in Join(parts, sep)
    decreases |parts|
  {
    if |parts| > 1 {
      var n := |parts| - 1;
      JoinFreeOf(parts[..n], sep, c);
      var front := Join(parts[..n], sep);
      var s := front + [sep] + parts[n];
      assert Join(parts, sep) == s;
      forall i | 0 <= i < |s|
        ensures s[i] != c
      {
        if i < |front| {
          assert s[i] == front[i];
        } else if i > |front| {
          assert s[i] == parts[n][i - |front| - 1];
        }
      }
    }
  }
}
