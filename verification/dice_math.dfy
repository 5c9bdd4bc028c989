/** The exact win/loss engine of js/math.js: a discrete full convolution, the
    distribution of the total of r fair dice, the strict tie-break race between the
    player's and the house's totals, and two-outcome Shannon entropy. Probabilities
    are exact reals, so the engine's promises become theorems. */
module DiceMath {
  import opened Sums

  // ---------------------------------------------------------------------------
  // Convolution
  // ---------------------------------------------------------------------------

  /** What the pair (i, k - i) contributes to entry k of the full convolution:
      a[i]·b[k - i] when k - i indexes b, and nothing otherwise. */
  function Term(a: seq<real>, b: seq<real>, i: int, k: int): real
    requires 0 <= i < |a|
  {
    if 0 <= k - i < |b| then a[i] * b[k - i] else 0.0
  }

  /** Σ over i < n of Term(a, b, i, k): entry k of the full convolution restricted
      to the first n entries of a. With n = |a| it is Σ over i + j = k of a[i]·b[j]. */
  function PartialAt(a: seq<real>, b: seq<real>, n: nat, k: int): real
    requires n <= |a|
    decreases n
  {
    if n == 0 then 0.0 else PartialAt(a, b, n - 1, k) + Term(a, b, n - 1, k)
  }

  /** The full convolution (numpy's mode 'full'), entry by entry. */
  function Conv(a: seq<real>, b: seq<real>): seq<real>
    requires 1 <= |a| + |b|
  {
    seq(|a| + |b| - 1, k => PartialAt(a, b, |a|, k))
  }

  /** The source's convolve: a zero-filled result of n + m - 1 entries into which
      the nested loops add vec1[i]·vec2[j] at position i + j. The empty pair is
      excluded: the source asks for an array of length -1 there and throws. */
  method Convolve(vec1: seq<real>, vec2: seq<real>) returns (result: seq<real>)
    requires 1 <= |vec1| + |vec2|
    ensures |result| == |vec1| + |vec2| - 1
    ensures forall k :: 0 <= k < |result| ==> result[k] == PartialAt(vec1, vec2, |vec1|, k)
  {
    var n := |vec1|;
    var m := |vec2|;
    result := seq(n + m - 1, _ => 0.0);
    var i := 0;
    while i < n
      invariant 0 <= i <= n
      invariant |result| == n + m - 1
      invariant forall k :: 0 <= k < |result| ==> result[k] == PartialAt(vec1, vec2, i, k)
    {
      var j := 0;
      while j < m
        invariant 0 <= j <= m
        invariant |result| == n + m - 1
        invariant forall k :: 0 <= k < |result| ==>
          result[k] == PartialAt(vec1, vec2, i, k) + (if i <= k < i + j then vec1[i] * vec2[k - i] else 0.0)
      {
        result := result[i + j := result[i + j] + vec1[i] * vec2[j]];
        j := j + 1;
      }
      i := i + 1;
    }
  }

  /** Entry k of the convolution after n rows, for every k, as a sequence. */
  function Layer(a: seq<real>, b: seq<real>, n: nat, len: nat): seq<real>
    requires n <= |a|
  {
    seq(len, k => PartialAt(a, b, n, k))
  }

  /** What row i of the double loop adds: a[i]·b shifted by i. */
  function Row(a: seq<real>, b: seq<real>, i: nat, len: nat): seq<real>
    requires i < |a|
  {
    seq(len, k => Term(a, b, i, k))
  }

  /** Row i is b scaled by a[i], preceded by i zeros and followed by zeros. */
  lemma RowShape(a: seq<real>, b: seq<real>, i: nat)
    requires i < |a|
    ensures Row(a, b, i, |a| + |b| - 1)
         == seq(i, _ => 0.0) + Scale(a[i], b) + seq(|a| - 1 - i, _ => 0.0)
  {
    var len := |a| + |b| - 1;
    var row := Row(a, b, i, len);
    var front, middle, back := seq(i, _ => 0.0), Scale(a[i], b), seq(|a| - 1 - i, _ => 0.0);
    var whole := front + middle + back;
    forall k | 0 <= k < len
      ensures row[k] == whole[k]
    {
      if k < i {
        assert whole[k] == front[k];
      } else if k < i + |b| {
        assert whole[k] == middle[k - i];
      } else {
        assert whole[k] == back[k - i - |b|];
      }
    }
  }

  function Scale(c: real, b: seq<real>): (r: seq<real>)
    ensures |r| == |b|
  {
    seq(|b|, j requires 0 <= j < |b| => c * b[j])
  }

  /** b scaled by c with zeros around it has mass c·Sum(b). */
  lemma PaddedSum(c: real, b: seq<real>, before: nat, after: nat)
    ensures Sum(seq(before, _ => 0.0) + Scale(c, b) + seq(after, _ => 0.0)) == c * Sum(b)
  {
    SumZeroPadded(seq(before, _ => 0.0), Scale(c, b), seq(after, _ => 0.0));
    SumScaled(c, b, Scale(c, b));
  }

  /** With b a distribution, row i adds a[i] to the total mass. */
  lemma RowSum(a: seq<real>, b: seq<real>, i: nat)
    requires i < |a| && Sum(b) == 1.0
    ensures Sum(Row(a, b, i, |a| + |b| - 1)) == a[i]
  {
    RowShape(a, b, i);
    PaddedSum(a[i], b, i, |a| - 1 - i);
    TimesOne(a[i], Sum(b));
  }

  lemma TimesOne(x: real, y: real)
    requires y == 1.0
    ensures x * y == x
  {
  }

  /** With b a distribution, the mass after n rows is the mass of the first n
      entries of a. */
  lemma {:induction false} LayerSum(a: seq<real>, b: seq<real>, n: nat)
    requires 1 <= |a| && n <= |a| && Sum(b) == 1.0
    ensures Sum(Layer(a, b, n, |a| + |b| - 1)) == Sum(a[..n])
    decreases n
  {
    if n == 0 {
      SumConstant(Layer(a, b, 0, |a| + |b| - 1), 0.0);
    } else {
      LayerSum(a, b, n - 1);
      LayerStep(a, b, n);
      PrefixSumStep(a, n);
    }
  }

  lemma LayerStep(a: seq<real>, b: seq<real>, n: nat)
    requires 1 <= n <= |a| && Sum(b) == 1.0
    ensures Sum(Layer(a, b, n, |a| + |b| - 1)) == Sum(Layer(a, b, n - 1, |a| + |b| - 1)) + a[n - 1]
  {
    var len, i := |a| + |b| - 1, n - 1;
    var prev, row, next := Layer(a, b, i, len), Row(a, b, i, len), Layer(a, b, n, len);
    forall k | 0 <= k < len
      ensures next[k] == prev[k] + row[k]
    {
    }
    SumPointwise(prev, row, next);
    RowSum(a, b, i);
  }

  lemma PrefixSumStep(a: seq<real>, n: nat)
    requires 1 <= n <= |a|
    ensures Sum(a[..n]) == Sum(a[..n - 1]) + a[n - 1]
  {
    assert a[..n][..n - 1] == a[..n - 1];
  }

  /** Convolving with a distribution keeps the total mass. */
  lemma ConvSum(a: seq<real>, b: seq<real>)
    requires 1 <= |a| && Sum(b) == 1.0
    ensures Sum(Conv(a, b)) == Sum(a)
  {
    LayerSum(a, b, |a|);
    assert Conv(a, b) == Layer(a, b, |a|, |a| + |b| - 1);
    assert a[..|a|] == a;
  }

  lemma {:induction false} PartialAtNonNegative(a: seq<real>, b: seq<real>, n: nat, k: int)
    requires n <= |a| && NonNegative(a) && NonNegative(b)
    ensures 0.0 <= PartialAt(a, b, n, k)
    decreases n
  {
    if n > 0 {
      PartialAtNonNegative(a, b, n - 1, k);
    }
  }

  // ---------------------------------------------------------------------------
  // The distribution of the total of r dice
  // ---------------------------------------------------------------------------

  /** One fair die: each of the sides faces has probability 1/sides. */
  function Uniform(sides: nat): seq<real>
    requires 1 <= sides
  {
    seq(sides, _ => 1.0 / sides as real)
  }

  /** The source's player_future_dist: one die convolved with itself r - 1 times.
      Entry i is the probability that r dice total r + i. */
  function FutureDist(r: nat, sides: nat): (d: seq<real>)
    requires 1 <= r && 1 <= sides
    ensures |d| == sides * r - r + 1
    decreases r
  {
    if r == 1 then Uniform(sides)
    else
      var prev := FutureDist(r - 1, sides);
      assert sides * r == sides * (r - 1) + sides;
      Conv(prev, Uniform(sides))
  }

  /** Number of possible totals of r dice, lowest first. */
  function Support(r: nat, sides: nat): nat
    requires 1 <= sides
  {
    sides * r - r + 1
  }

  lemma UniformIsDistribution(sides: nat)
    requires 1 <= sides
    ensures NonNegative(Uniform(sides)) && Sum(Uniform(sides)) == 1.0
  {
    SumConstant(Uniform(sides), 1.0 / sides as real);
    assert sides as real * (1.0 / sides as real) == 1.0;
  }

  /** The future-sum distribution has sides·r − r + 1 non-negative entries summing to 1. */
  lemma {:induction false} FutureDistIsDistribution(r: nat, sides: nat)
    requires 1 <= r && 1 <= sides
    ensures |FutureDist(r, sides)| == Support(r, sides)
    ensures NonNegative(FutureDist(r, sides))
    ensures Sum(FutureDist(r, sides)) == 1.0
    decreases r
  {
    UniformIsDistribution(sides);
    if r > 1 {
      var u := Uniform(sides);
      var prev := FutureDist(r - 1, sides);
      var d := FutureDist(r, sides);
      FutureDistIsDistribution(r - 1, sides);
      ConvSum(prev, u);
      assert d == Conv(prev, u);
      forall k | 0 <= k < |d|
        ensures 0.0 <= d[k]
      {
        PartialAtNonNegative(prev, u, |prev|, k);
      }
    }
  }

  // ---------------------------------------------------------------------------
  // The race
  // ---------------------------------------------------------------------------

  datatype Outcome = Win | Loss

  /** The tie-break rule used by the engine and by the trial resolution: the player
      wins only with a strictly larger total; a tie is a loss. */
  function Judge(playerFinal: int, houseFinal: int): Outcome
  {
    if playerFinal > houseFinal then Win else Loss
  }

  datatype WinLoss = WinLoss(win: real, loss: real)

  /** Joint mass of future indices (pi, hi) if the final totals they lead to are
      judged o, and nothing otherwise. */
  function Cell(pd: seq<real>, hd: seq<real>, pBase: int, hBase: int, o: Outcome, pi: nat, hi: nat): real
    requires pi < |pd| && hi < |hd|
  {
    if Judge(pBase + pi, hBase + hi) == o then pd[pi] * hd[hi] else 0.0
  }

  /** Mass judged o among the first n house indices, for player index pi. */
  function RowMass(pd: seq<real>, hd: seq<real>, pBase: int, hBase: int, o: Outcome, pi: nat, n: nat): real
    requires pi < |pd| && n <= |hd|
    decreases n
  {
    if n == 0 then 0.0 else RowMass(pd, hd, pBase, hBase, o, pi, n - 1) + Cell(pd, hd, pBase, hBase, o, pi, n - 1)
  }

  /** Mass judged o among the first m player indices and all house indices. */
  function GridMass(pd: seq<real>, hd: seq<real>, pBase: int, hBase: int, o: Outcome, m: nat): real
    requires m <= |pd|
    decreases m
  {
    if m == 0 then 0.0 else GridMass(pd, hd, pBase, hBase, o, m - 1) + RowMass(pd, hd, pBase, hBase, o, m - 1, |hd|)
  }

  /** The source's calculate_probabilities: decided outright when no stage remains,
      otherwise the mass of every (player future total, house future total) pair is
      split into win and loss by the tie-break rule. Index i of the distribution is a
      future total of r + i, so the final totals are current + r + i. */
  function Probabilities(playerCurrent: int, houseCurrent: int, remaining: nat, sides: nat): WinLoss
    requires 1 <= sides
  {
    if remaining == 0 then
      if playerCurrent > houseCurrent then WinLoss(1.0, 0.0) else WinLoss(0.0, 1.0)
    else
      var d := FutureDist(remaining, sides);
      WinLoss(GridMass(d, d, playerCurrent + remaining, houseCurrent + remaining, Win, |d|),
              GridMass(d, d, playerCurrent + remaining, houseCurrent + remaining, Loss, |d|))
  }

  /** Each cell goes to exactly one of win and loss. */
  lemma {:induction false} RowSplits(pd: seq<real>, hd: seq<real>, pBase: int, hBase: int, pi: nat, n: nat)
    requires pi < |pd| && n <= |hd|
    ensures RowMass(pd, hd, pBase, hBase, Win, pi, n) + RowMass(pd, hd, pBase, hBase, Loss, pi, n)
            == pd[pi] * Sum(hd[..n])
    decreases n
  {
    if n > 0 {
      RowSplits(pd, hd, pBase, hBase, pi, n - 1);
      assert hd[..n][..n - 1] == hd[..n - 1];
    }
  }

  lemma {:induction false} GridSplits(pd: seq<real>, hd: seq<real>, pBase: int, hBase: int, m: nat)
    requires m <= |pd|
    ensures GridMass(pd, hd, pBase, hBase, Win, m) + GridMass(pd, hd, pBase, hBase, Loss, m)
            == Sum(pd[..m]) * Sum(hd)
    decreases m
  {
    if m > 0 {
      GridSplits(pd, hd, pBase, hBase, m - 1);
      RowSplits(pd, hd, pBase, hBase, m - 1, |hd|);
      assert hd[..|hd|] == hd;
      assert pd[..m][..m - 1] == pd[..m - 1];
    }
  }

  lemma {:induction false} RowNonNegative(pd: seq<real>, hd: seq<real>, pBase: int, hBase: int, o: Outcome, pi: nat, n: nat)
    requires pi < |pd| && n <= |hd| && NonNegative(pd) && NonNegative(hd)
    ensures 0.0 <= RowMass(pd, hd, pBase, hBase, o, pi, n)
    decreases n
  {
    if n > 0 {
      RowNonNegative(pd, hd, pBase, hBase, o, pi, n - 1);
    }
  }

  lemma {:induction false} GridNonNegative(pd: seq<real>, hd: seq<real>, pBase: int, hBase: int, o: Outcome, m: nat)
    requires m <= |pd| && NonNegative(pd) && NonNegative(hd)
    ensures 0.0 <= GridMass(pd, hd, pBase, hBase, o, m)
    decreases m
  {
    if m > 0 {
      GridNonNegative(pd, hd, pBase, hBase, o, m - 1);
      RowNonNegative(pd, hd, pBase, hBase, o, m - 1, |hd|);
    }
  }

  /** Every future pair is added to exactly one of win and loss, so the two are
      probabilities that sum to 1: there is no third "push" outcome. */
  lemma ProbabilitiesSumToOne(playerCurrent: int, houseCurrent: int, remaining: nat, sides: nat)
    requires 1 <= sides
    ensures Probabilities(playerCurrent, houseCurrent, remaining, sides).win
          + Probabilities(playerCurrent, houseCurrent, remaining, sides).loss == 1.0
    ensures 0.0 <= Probabilities(playerCurrent, houseCurrent, remaining, sides).win <= 1.0
    ensures 0.0 <= Probabilities(playerCurrent, houseCurrent, remaining, sides).loss <= 1.0
  {
    if remaining > 0 {
      var d := FutureDist(remaining, sides);
      var pBase, hBase := playerCurrent + remaining, houseCurrent + remaining;
      FutureDistIsDistribution(remaining, sides);
      GridSplits(d, d, pBase, hBase, |d|);
      assert d[..|d|] == d;
      GridNonNegative(d, d, pBase, hBase, Win, |d|);
      GridNonNegative(d, d, pBase, hBase, Loss, |d|);
    }
  }

  /** With no stage left the race is decided by the current totals, ties going to the house. */
  lemma NoStageLeft(playerCurrent: int, houseCurrent: int, sides: nat)
    requires 1 <= sides
    ensures playerCurrent > houseCurrent ==> Probabilities(playerCurrent, houseCurrent, 0, sides) == WinLoss(1.0, 0.0)
    ensures playerCurrent <= houseCurrent ==> Probabilities(playerCurrent, houseCurrent, 0, sides) == WinLoss(0.0, 1.0)
  {
  }

  /** Swapping the roles does not swap win and loss: from level totals with no
      stage left, each side's chance of winning is 0. */
  lemma SwapIsNotSymmetricOnTies(sides: nat)
    requires 1 <= sides
    ensures Probabilities(7, 7, 0, sides).win != Probabilities(7, 7, 0, sides).loss
  {
  }

  lemma {:induction false} RowMonotone(pd: seq<real>, hd: seq<real>, pBase: int, pBase': int, hBase: int, pi: nat, n: nat)
    requires pi < |pd| && n <= |hd| && NonNegative(pd) && NonNegative(hd) && pBase <= pBase'
    ensures RowMass(pd, hd, pBase, hBase, Win, pi, n) <= RowMass(pd, hd, pBase', hBase, Win, pi, n)
    decreases n
  {
    if n > 0 {
      RowMonotone(pd, hd, pBase, pBase', hBase, pi, n - 1);
      assert 0.0 <= pd[pi] * hd[n - 1];
    }
  }

  lemma {:induction false} GridMonotone(pd: seq<real>, hd: seq<real>, pBase: int, pBase': int, hBase: int, m: nat)
    requires m <= |pd| && NonNegative(pd) && NonNegative(hd) && pBase <= pBase'
    ensures GridMass(pd, hd, pBase, hBase, Win, m) <= GridMass(pd, hd, pBase', hBase, Win, m)
    decreases m
  {
    if m > 0 {
      GridMonotone(pd, hd, pBase, pBase', hBase, m - 1);
      RowMonotone(pd, hd, pBase, pBase', hBase, m - 1, |hd|);
    }
  }

  /** Raising the player's current total, all else fixed, never lowers the chance of winning. */
  lemma WinMonotone(playerCurrent: int, playerCurrent': int, houseCurrent: int, remaining: nat, sides: nat)
    requires 1 <= sides && playerCurrent <= playerCurrent'
    ensures Probabilities(playerCurrent, houseCurrent, remaining, sides).win
         <= Probabilities(playerCurrent', houseCurrent, remaining, sides).win
  {
    if remaining > 0 {
      var d := FutureDist(remaining, sides);
      FutureDistIsDistribution(remaining, sides);
      GridMonotone(d, d, playerCurrent + remaining, playerCurrent' + remaining, houseCurrent + remaining, |d|);
    }
  }

  // ---------------------------------------------------------------------------
  // The loop-based algorithm of the source
  // ---------------------------------------------------------------------------

  /** Step 2 of calculate_probabilities: start from one die and convolve with one
      more die remaining - 1 times. */
  method BuildFutureDist(remaining: nat, sides: nat) returns (dist: seq<real>)
    requires 1 <= remaining && 1 <= sides
    ensures dist == FutureDist(remaining, sides)
  {
    var single := Uniform(sides);
    dist := single;
    var i := 0;
    while i < remaining - 1
      invariant 0 <= i <= remaining - 1
      invariant dist == FutureDist(i + 1, sides)
    {
      dist := Convolve(dist, single);
      i := i + 1;
    }
  }

  /** The inner loop of step 3 for one player index: each pair's joint mass is added
      to win when the player's final total is strictly larger, and to loss otherwise. */
  method RaceRow(playerDist: seq<real>, houseDist: seq<real>, pBase: int, hBase: int, pIdx: nat,
                 win0: real, loss0: real)
    returns (winProb: real, lossProb: real)
    requires pIdx < |playerDist|
    ensures winProb == win0 + RowMass(playerDist, houseDist, pBase, hBase, Win, pIdx, |houseDist|)
    ensures lossProb == loss0 + RowMass(playerDist, houseDist, pBase, hBase, Loss, pIdx, |houseDist|)
  {
    winProb, lossProb := win0, loss0;
    var pFinal := pBase + pIdx;
    var hIdx := 0;
    while hIdx < |houseDist|
      invariant 0 <= hIdx <= |houseDist|
      invariant winProb == win0 + RowMass(playerDist, houseDist, pBase, hBase, Win, pIdx, hIdx)
      invariant lossProb == loss0 + RowMass(playerDist, houseDist, pBase, hBase, Loss, pIdx, hIdx)
    {
      var hFinal := hBase + hIdx;
      var joint := playerDist[pIdx] * houseDist[hIdx];
      if pFinal > hFinal {
        winProb := winProb + joint;
      } else {
        lossProb := lossProb + joint;
      }
      hIdx := hIdx + 1;
    }
  }

  /** Step 3 of calculate_probabilities: the outer loop over the player's indices. */
  method Race(playerDist: seq<real>, houseDist: seq<real>, pBase: int, hBase: int)
    returns (winProb: real, lossProb: real)
    ensures winProb == GridMass(playerDist, houseDist, pBase, hBase, Win, |playerDist|)
    ensures lossProb == GridMass(playerDist, houseDist, pBase, hBase, Loss, |playerDist|)
  {
    winProb, lossProb := 0.0, 0.0;
    var pIdx := 0;
    while pIdx < |playerDist|
      invariant 0 <= pIdx <= |playerDist|
      invariant winProb == GridMass(playerDist, houseDist, pBase, hBase, Win, pIdx)
      invariant lossProb == GridMass(playerDist, houseDist, pBase, hBase, Loss, pIdx)
    {
      winProb, lossProb := RaceRow(playerDist, houseDist, pBase, hBase, pIdx, winProb, lossProb);
      pIdx := pIdx + 1;
    }
  }

  /** calculate_probabilities as the source computes it: the distributions are built by
      repeated convolution, then every (player, house) index pair is visited in a
      nested loop that accumulates win and loss. It computes exactly the engine's
      probabilities, which sum to 1. */
  method CalculateProbabilities(playerCurrent: int, houseCurrent: int, remaining: nat, sides: nat)
    returns (p: WinLoss)
    requires 1 <= sides
    ensures p == Probabilities(playerCurrent, houseCurrent, remaining, sides)
    ensures p.win + p.loss == 1.0
  {
    if remaining == 0 {
      if playerCurrent > houseCurrent {
        p := WinLoss(1.0, 0.0);
      } else {
        p := WinLoss(0.0, 1.0);
      }
    } else {
      var playerDist := BuildFutureDist(remaining, sides);
      var houseDist := BuildFutureDist(remaining, sides);
      var winProb, lossProb := Race(playerDist, houseDist, playerCurrent + remaining, houseCurrent + remaining);
      p := WinLoss(winProb, lossProb);
    }
    ProbabilitiesSumToOne(playerCurrent, houseCurrent, remaining, sides);
  }

  // ---------------------------------------------------------------------------
  // Entropy
  // ---------------------------------------------------------------------------

  /** -p·log2(p) for p > 0; a zero (or negative) probability contributes nothing. The
      logarithm is a parameter that only needs to be defined on positive arguments, so
      the definition's well-formedness shows it is never applied to 0. */
  function Surprisal(p: real, log2: real --> real): real
    requires forall x :: 0.0 < x ==> log2.requires(x)
  {
    if p > 0.0 then -(p * log2(p)) else 0.0
  }

  /** calculate_entropy: binary Shannon entropy in bits, skipping zero terms. */
  function Entropy(pWin: real, pLoss: real, log2: real --> real): (h: real)
    requires forall x :: 0.0 < x ==> log2.requires(x)
    ensures pWin == 0.0 ==> h == Surprisal(pLoss, log2)
    ensures pLoss == 0.0 ==> h == Surprisal(pWin, log2)
  {
    var e0 := 0.0;
    var e1 := if pWin > 0.0 then e0 - pWin * log2(pWin) else e0;
    if pLoss > 0.0 then e1 - pLoss * log2(pLoss) else e1
  }

  /** Entropy does not depend on which outcome is called the win. */
  lemma EntropySymmetric(pWin: real, pLoss: real, log2: real --> real)
    requires forall x :: 0.0 < x ==> log2.requires(x)
    ensures Entropy(pWin, pLoss, log2) == Entropy(pLoss, pWin, log2)
  {
  }

  /** Certainty carries no information, given log2(1) = 0. */
  lemma EntropyOfCertainty(log2: real --> real)
    requires forall x :: 0.0 < x ==> log2.requires(x)
    requires log2(1.0) == 0.0
    ensures Entropy(1.0, 0.0, log2) == 0.0 && Entropy(0.0, 1.0, log2) == 0.0
  {
  }

  /** An even race carries one bit, given log2(1/2) = -1. */
  lemma EntropyOfEvenRace(log2: real --> real)
    requires forall x :: 0.0 < x ==> log2.requires(x)
    requires log2(0.5) == -1.0
    ensures Entropy(0.5, 0.5, log2) == 1.0
  {
  }

  /** Entropy is non-negative for probabilities, given log2 is non-positive on (0, 1]. */
  lemma EntropyNonNegative(pWin: real, pLoss: real, log2: real --> real)
    requires forall x :: 0.0 < x ==> log2.requires(x)
    requires forall x :: 0.0 < x <= 1.0 ==> log2(x) <= 0.0
    requires 0.0 <= pWin <= 1.0 && 0.0 <= pLoss <= 1.0
    ensures 0.0 <= Entropy(pWin, pLoss, log2)
  {
    if pWin > 0.0 {
      assert pWin * log2(pWin) <= 0.0;
    }
    if pLoss > 0.0 {
      assert pLoss * log2(pLoss) <= 0.0;
    }
  }
}
