/** What the engine's numbers mean: entry i of the future-sum distribution is the
    fraction of the sides^r equally likely roll sequences of r dice whose total is
    r + i, and the engine's win probability is the fraction of the sides^(2r) pairs of
    roll sequences (player's, house's) after which the player's final total strictly
    exceeds the house's. The roll sequences are enumerated explicitly. */
module RollCount {
  import opened Sums
  import opened DiceMath

  function Pow(b: nat, e: nat): (p: nat)
    ensures 1 <= b ==> 1 <= p
    decreases e
  {
    if e == 0 then 1 else Pow(b, e - 1) * b
  }

  lemma {:induction false} PowAdd(b: nat, e1: nat, e2: nat)
    ensures Pow(b, e1 + e2) == Pow(b, e1) * Pow(b, e2)
    decreases e2
  {
    if e2 > 0 {
      PowAdd(b, e1, e2 - 1);
      MulAssoc(Pow(b, e1), Pow(b, e2 - 1), b);
    }
  }

  lemma MulAssoc(x: int, y: int, z: int)
    ensures x * y * z == x * (y * z)
  {
  }

  // ---------------------------------------------------------------------------
  // Roll sequences
  // ---------------------------------------------------------------------------

  /** A roll sequence of r dice with faces 1..sides. */
  predicate IsRoll(q: seq<int>, r: nat, sides: nat)
  {
    |q| == r && forall j :: 0 <= j < |q| ==> 1 <= q[j] <= sides
  }

  /** q followed by each face 1..sides. */
  function Faces(q: seq<int>, sides: nat): seq<seq<int>>
  {
    seq(sides, f => q + [f + 1])
  }

  /** Every sequence of L followed by every face, in order. */
  function Extend(L: seq<seq<int>>, sides: nat): seq<seq<int>>
    decreases |L|
  {
    if |L| == 0 then [] else Extend(L[..|L| - 1], sides) + Faces(L[|L| - 1], sides)
  }

  /** All roll sequences of r dice, in lexicographic order. */
  function AllRolls(r: nat, sides: nat): seq<seq<int>>
    decreases r
  {
    if r == 0 then [[]] else Extend(AllRolls(r - 1, sides), sides)
  }

  // ---------------------------------------------------------------------------
  // Counting
  // ---------------------------------------------------------------------------

  /** How many sequences of L total t. */
  function CountTotal(L: seq<seq<int>>, t: int): nat
    decreases |L|
  {
    if |L| == 0 then 0
    else CountTotal(L[..|L| - 1], t) + (if SumInts(L[|L| - 1]) == t then 1 else 0)
  }

  /** How many house sequences of H a player final total v strictly beats, the house
      starting from hc. */
  function Beaten(v: int, hc: int, H: seq<seq<int>>): nat
    decreases |H|
  {
    if |H| == 0 then 0
    else Beaten(v, hc, H[..|H| - 1]) + (if v > hc + SumInts(H[|H| - 1]) then 1 else 0)
  }

  /** How many pairs (p, h) of P × H leave the player (from pc) strictly ahead of the
      house (from hc). */
  function WinningPairs(pc: int, hc: int, P: seq<seq<int>>, H: seq<seq<int>>): nat
    decreases |P|
  {
    if |P| == 0 then 0
    else WinningPairs(pc, hc, P[..|P| - 1], H) + Beaten(pc + SumInts(P[|P| - 1]), hc, H)
  }

  /** Σ over q in L of g(total of q). */
  function SumBy(L: seq<seq<int>>, g: int -> int): int
    decreases |L|
  {
    if |L| == 0 then 0 else SumBy(L[..|L| - 1], g) + g(SumInts(L[|L| - 1]))
  }

  /** Σ over i < n of (how many of L total lo + i)·g(lo + i): the same sum grouped by total. */
  function Grouped(L: seq<seq<int>>, g: int -> int, lo: int, n: nat): int
    decreases n
  {
    if n == 0 then 0 else Grouped(L, g, lo, n - 1) + CountTotal(L, lo + n - 1) * g(lo + n - 1)
  }

  lemma {:induction false} GroupedAppend(L: seq<seq<int>>, q: seq<int>, g: int -> int, lo: int, n: nat)
    ensures Grouped(L + [q], g, lo, n)
         == Grouped(L, g, lo, n) + (if lo <= SumInts(q) < lo + n then g(SumInts(q)) else 0)
    decreases n
  {
    if n > 0 {
      GroupedAppend(L, q, g, lo, n - 1);
      var t := lo + n - 1;
      assert (L + [q])[..|L + [q]| - 1] == L;
      var c := CountTotal(L, t);
      if SumInts(q) == t {
        assert CountTotal(L + [q], t) == c + 1;
        assert (c + 1) * g(t) == c * g(t) + g(t);
      } else {
        assert CountTotal(L + [q], t) == c;
      }
    }
  }

  /** Summing over the sequences of L equals summing over their possible totals,
      each weighted by how many sequences reach it. */
  lemma {:induction false} Grouping(L: seq<seq<int>>, g: int -> int, lo: int, n: nat)
    requires forall j :: 0 <= j < |L| ==> lo <= SumInts(L[j]) < lo + n
    ensures SumBy(L, g) == Grouped(L, g, lo, n)
    decreases |L|
  {
    if |L| == 0 {
      GroupedEmpty(g, lo, n);
    } else {
      var init := L[..|L| - 1];
      Grouping(init, g, lo, n);
      assert init + [L[|L| - 1]] == L;
      GroupedAppend(init, L[|L| - 1], g, lo, n);
    }
  }

  lemma {:induction false} GroupedEmpty(g: int -> int, lo: int, n: nat)
    ensures Grouped([], g, lo, n) == 0
    decreases n
  {
    if n > 0 {
      GroupedEmpty(g, lo, n - 1);
    }
  }

  lemma {:induction false} BeatenIsSumBy(v: int, hc: int, H: seq<seq<int>>, g: int -> int)
    requires forall u :: g(u) == (if v > hc + u then 1 else 0)
    ensures Beaten(v, hc, H) == SumBy(H, g)
    decreases |H|
  {
    if |H| > 0 {
      BeatenIsSumBy(v, hc, H[..|H| - 1], g);
    }
  }

  lemma {:induction false} WinningPairsIsSumBy(pc: int, hc: int, P: seq<seq<int>>, H: seq<seq<int>>, g: int -> int)
    requires forall u :: g(u) == Beaten(pc + u, hc, H)
    ensures WinningPairs(pc, hc, P, H) == SumBy(P, g)
    decreases |P|
  {
    if |P| > 0 {
      WinningPairsIsSumBy(pc, hc, P[..|P| - 1], H, g);
    }
  }

  lemma {:induction false} CountAppend(L: seq<seq<int>>, M: seq<seq<int>>, t: int)
    ensures CountTotal(L + M, t) == CountTotal(L, t) + CountTotal(M, t)
    decreases |M|
  {
    if |M| == 0 {
      assert L + M == L;
    } else {
      assert (L + M)[..|L + M| - 1] == L + M[..|M| - 1];
      CountAppend(L, M[..|M| - 1], t);
    }
  }

  /** Among q + [1], ..., q + [n], exactly one totals t when 1 <= t - Σq <= n. */
  lemma {:induction false} CountFaces(q: seq<int>, sides: nat, n: nat, t: int)
    requires n <= sides
    ensures CountTotal(Faces(q, sides)[..n], t) == (if 1 <= t - SumInts(q) <= n then 1 else 0)
    decreases n
  {
    if n > 0 {
      var fs := Faces(q, sides)[..n];
      assert fs[..n - 1] == Faces(q, sides)[..n - 1];
      CountFaces(q, sides, n - 1, t);
      SumIntsAppend(q, [n]);
      assert fs[n - 1] == q + [n];
    }
  }

  /** How many extensions of L total t: each sequence of L contributes one exactly
      when the face needed to reach t exists. */
  lemma {:induction false} CountExtend(L: seq<seq<int>>, sides: nat, t: int, g: int -> int)
    requires forall u :: g(u) == (if 1 <= t - u <= sides then 1 else 0)
    ensures CountTotal(Extend(L, sides), t) == SumBy(L, g)
    decreases |L|
  {
    if |L| > 0 {
      var q := L[|L| - 1];
      CountExtend(L[..|L| - 1], sides, t, g);
      CountAppend(Extend(L[..|L| - 1], sides), Faces(q, sides), t);
      CountFaces(q, sides, sides, t);
      assert Faces(q, sides)[..sides] == Faces(q, sides);
    }
  }

  // ---------------------------------------------------------------------------
  // The enumeration is exactly the set of roll sequences, each once
  // ---------------------------------------------------------------------------

  lemma {:induction false} ExtendLength(L: seq<seq<int>>, sides: nat)
    ensures |Extend(L, sides)| == |L| * sides
    decreases |L|
  {
    if |L| > 0 {
      ExtendLength(L[..|L| - 1], sides);
      assert (|L| - 1) * sides + sides == |L| * sides;
    }
  }

  /** There are sides^r roll sequences of r dice. */
  lemma {:induction false} AllRollsLength(r: nat, sides: nat)
    ensures |AllRolls(r, sides)| == Pow(sides, r)
    decreases r
  {
    if r > 0 {
      AllRollsLength(r - 1, sides);
      ExtendLength(AllRolls(r - 1, sides), sides);
    }
  }

  lemma {:induction false} ExtendRolls(L: seq<seq<int>>, r: nat, sides: nat)
    requires forall j :: 0 <= j < |L| ==> IsRoll(L[j], r, sides)
    ensures forall j :: 0 <= j < |Extend(L, sides)| ==> IsRoll(Extend(L, sides)[j], r + 1, sides)
    decreases |L|
  {
    if |L| > 0 {
      var init := L[..|L| - 1];
      ExtendRolls(init, r, sides);
      var e := Extend(L, sides);
      var fs := Faces(L[|L| - 1], sides);
      assert e == Extend(init, sides) + fs;
      forall j | 0 <= j < |e|
        ensures IsRoll(e[j], r + 1, sides)
      {
        if j >= |Extend(init, sides)| {
          var f := j - |Extend(init, sides)|;
          assert e[j] == L[|L| - 1] + [f + 1];
        }
      }
    }
  }

  /** Every enumerated sequence is a roll sequence of r dice. */
  lemma {:induction false} AllRollsAreRolls(r: nat, sides: nat)
    ensures forall j :: 0 <= j < |AllRolls(r, sides)| ==> IsRoll(AllRolls(r, sides)[j], r, sides)
    decreases r
  {
    if r > 0 {
      AllRollsAreRolls(r - 1, sides);
      ExtendRolls(AllRolls(r - 1, sides), r - 1, sides);
    }
  }

  lemma {:induction false} ExtendContains(L: seq<seq<int>>, sides: nat, j: nat, f: int)
    requires j < |L| && 1 <= f <= sides
    ensures L[j] + [f] in Extend(L, sides)
    decreases |L|
  {
    var init := L[..|L| - 1];
    if j == |L| - 1 {
      assert Faces(L[j], sides)[f - 1] == L[j] + [f];
    } else {
      ExtendContains(init, sides, j, f);
    }
  }

  /** Every roll sequence of r dice is enumerated. */
  lemma {:induction false} AllRollsComplete(q: seq<int>, r: nat, sides: nat)
    requires IsRoll(q, r, sides)
    ensures q in AllRolls(r, sides)
    decreases r
  {
    if r == 0 {
      assert q == [];
    } else {
      var init := q[..r - 1];
      AllRollsComplete(init, r - 1, sides);
      var L := AllRolls(r - 1, sides);
      var j :| 0 <= j < |L| && L[j] == init;
      ExtendContains(L, sides, j, q[r - 1]);
      assert init + [q[r - 1]] == q;
    }
  }

  predicate Distinct(L: seq<seq<int>>)
  {
    forall x, y :: 0 <= x < y < |L| ==> L[x] != L[y]
  }

  /** Every extension of L starts with a sequence of L. */
  lemma {:induction false} ExtendPrefixes(L: seq<seq<int>>, r: nat, sides: nat)
    requires forall j :: 0 <= j < |L| ==> |L[j]| == r
    ensures forall x :: 0 <= x < |Extend(L, sides)| ==>
      |Extend(L, sides)[x]| == r + 1 && Extend(L, sides)[x][..r] in L
    decreases |L|
  {
    if |L| > 0 {
      var init := L[..|L| - 1];
      ExtendPrefixes(init, r, sides);
      var e := Extend(L, sides);
      var k := |Extend(init, sides)|;
      forall x | 0 <= x < |e|
        ensures |e[x]| == r + 1 && e[x][..r] in L
      {
        if x < k {
          assert e[x] == Extend(init, sides)[x];
          var j :| 0 <= j < |init| && init[j] == e[x][..r];
          assert L[j] == init[j];
        } else {
          assert e[x] == L[|L| - 1] + [x - k + 1];
          assert e[x][..r] == L[|L| - 1];
        }
      }
    }
  }

  lemma {:induction false} ExtendDistinct(L: seq<seq<int>>, r: nat, sides: nat)
    requires Distinct(L)
    requires forall j :: 0 <= j < |L| ==> |L[j]| == r
    ensures Distinct(Extend(L, sides))
    decreases |L|
  {
    if |L| > 0 {
      var init := L[..|L| - 1];
      var last := L[|L| - 1];
      ExtendDistinct(init, r, sides);
      ExtendPrefixes(init, r, sides);
      var front := Extend(init, sides);
      var e := Extend(L, sides);
      var k := |front|;
      forall x, y | 0 <= x < y < |e|
        ensures e[x] != e[y]
      {
        if y < k {
          assert e[x] == front[x] && e[y] == front[y];
        } else if x < k {
          assert e[x] == front[x];
          assert e[y] == last + [y - k + 1];
          assert e[y][..r] == last;
          assert last !in init by {
            forall j | 0 <= j < |init|
              ensures init[j] != last
            {
              assert L[j] == init[j];
            }
          }
          assert e[x][..r] in init;
        } else {
          assert e[x] == last + [x - k + 1];
          assert e[y] == last + [y - k + 1];
          assert e[x][r] != e[y][r];
        }
      }
    }
  }

  /** No roll sequence is enumerated twice. */
  lemma {:induction false} AllRollsDistinct(r: nat, sides: nat)
    ensures Distinct(AllRolls(r, sides))
    decreases r
  {
    if r > 0 {
      AllRollsDistinct(r - 1, sides);
      AllRollsAreRolls(r - 1, sides);
      ExtendDistinct(AllRolls(r - 1, sides), r - 1, sides);
    }
  }

  /** The total of a roll sequence of r dice lies between r and sides·r. */
  lemma {:induction false} RollTotalBounds(q: seq<int>, r: nat, sides: nat)
    requires IsRoll(q, r, sides)
    ensures r <= SumInts(q) <= sides * r
    decreases r
  {
    if r > 0 {
      RollTotalBounds(q[..r - 1], r - 1, sides);
      assert sides * (r - 1) + sides == sides * r;
    }
  }

  lemma AllRollsTotals(r: nat, sides: nat)
    requires 1 <= sides
    ensures forall j :: 0 <= j < |AllRolls(r, sides)| ==>
      r <= SumInts(AllRolls(r, sides)[j]) < r + (sides * r - r + 1)
  {
    AllRollsAreRolls(r, sides);
    forall j | 0 <= j < |AllRolls(r, sides)|
      ensures r <= SumInts(AllRolls(r, sides)[j]) < r + (sides * r - r + 1)
    {
      RollTotalBounds(AllRolls(r, sides)[j], r, sides);
    }
  }

  // ---------------------------------------------------------------------------
  // The engine's numbers as fractions of roll sequences
  // ---------------------------------------------------------------------------

  lemma DivSplit(x: int, y: int, z: int)
    requires 0 < z
    ensures (x + y) as real / z as real == x as real / z as real + y as real / z as real
  {
  }

  lemma DivTimes(a: int, aDen: int, b: int, bDen: int)
    requires 0 < aDen && 0 < bDen
    ensures (a as real / aDen as real) * (b as real / bDen as real) == (a * b) as real / (aDen * bDen) as real
  {
    assert (a * b) as real == a as real * b as real;
    assert (aDen * bDen) as real == aDen as real * bDen as real;
  }

  /** Entry i of d is the fraction of the den sequences of L that total lo + i. */
  predicate CountsOf(d: seq<real>, L: seq<seq<int>>, lo: int, den: nat)
    requires 1 <= den
  {
    forall i :: 0 <= i < |d| ==> d[i] == CountTotal(L, lo + i) as real / den as real
  }

  /** Entry k of the convolution of a counted distribution with one die, after the
      first n rows: the rows are the totals lo + i that the die can lift to lo + 1 + k. */
  lemma {:induction false} PartialCounts(prev: seq<real>, u: seq<real>, L: seq<seq<int>>, lo: int, den: nat,
                                         sides: nat, k: int, n: nat, g: int -> int)
    requires 1 <= den && 1 <= sides && n <= |prev| && |u| == sides
    requires CountsOf(prev, L, lo, den)
    requires forall j :: 0 <= j < |u| ==> u[j] == 1.0 / sides as real
    requires forall t :: g(t) == (if 1 <= (lo + 1 + k) - t <= sides then 1 else 0)
    ensures PartialAt(prev, u, n, k) == Grouped(L, g, lo, n) as real / (den * sides) as real
    decreases n
  {
    if n > 0 {
      var i := n - 1;
      var c := CountTotal(L, lo + i);
      var before := Grouped(L, g, lo, i);
      assert PartialAt(prev, u, i, k) == before as real / (den * sides) as real by {
        PartialCounts(prev, u, L, lo, den, sides, k, i, g);
      }
      if 0 <= k - i < sides {
        assert Grouped(L, g, lo, n) == before + c by {
          assert g(lo + i) == 1;
        }
        assert prev[i] == c as real / den as real;
        CountStep(PartialAt(prev, u, i, k), prev[i], u[k - i], before, c, den, sides);
      } else {
        assert Grouped(L, g, lo, n) == before by {
          assert g(lo + i) == 0;
        }
      }
    }
  }

  /** One counted row added to entry k: c more sequences, each lifted by one face. */
  lemma CountStep(acc: real, x: real, y: real, before: int, c: int, den: nat, sides: nat)
    requires 1 <= den && 1 <= sides
    requires acc == before as real / (den * sides) as real
    requires x == c as real / den as real && y == 1.0 / sides as real
    ensures acc + x * y == (before + c) as real / (den * sides) as real
  {
    DivTimes(c, den, 1, sides);
    DivSplit(before, c, den * sides);
  }

  /** One step of the induction: convolving the counted distribution of r - 1 dice
      with one die counts the roll sequences of r dice. */
  lemma ConvolutionCountsRolls(prev: seq<real>, r: nat, sides: nat)
    requires 2 <= r && 1 <= sides && |prev| == sides * (r - 1) - (r - 1) + 1
    requires CountsOf(prev, AllRolls(r - 1, sides), r - 1, Pow(sides, r - 1))
    ensures CountsOf(Conv(prev, Uniform(sides)), AllRolls(r, sides), r, Pow(sides, r))
  {
    var d := Conv(prev, Uniform(sides));
    var A := AllRolls(r - 1, sides);
    AllRollsTotals(r - 1, sides);
    forall k | 0 <= k < |d|
      ensures d[k] == CountTotal(AllRolls(r, sides), r + k) as real / Pow(sides, r) as real
    {
      var g := t => if 1 <= (r + k) - t <= sides then 1 else 0;
      PartialCounts(prev, Uniform(sides), A, r - 1, Pow(sides, r - 1), sides, k, |prev|, g);
      Grouping(A, g, r - 1, |prev|);
      CountExtend(A, sides, r + k, g);
    }
  }

  /** Entry i of the future-sum distribution of r dice is the fraction of the
      sides^r roll sequences of r dice whose total is r + i. */
  lemma {:induction false} DistributionCountsRolls(r: nat, sides: nat)
    requires 1 <= r && 1 <= sides
    ensures CountsOf(FutureDist(r, sides), AllRolls(r, sides), r, Pow(sides, r))
    decreases r
  {
    var d := FutureDist(r, sides);
    if r == 1 {
      forall i | 0 <= i < |d|
        ensures d[i] == CountTotal(AllRolls(1, sides), 1 + i) as real / Pow(sides, 1) as real
      {
        var g := t => if 1 <= (1 + i) - t <= sides then 1 else 0;
        var one: seq<seq<int>> := [[]];
        CountExtend(one, sides, 1 + i, g);
        assert one[..0] == [];
        assert SumBy(one, g) == g(SumInts([]));
      }
    } else {
      DistributionCountsRolls(r - 1, sides);
      ConvolutionCountsRolls(FutureDist(r - 1, sides), r, sides);
    }
  }

  /** Row pi of the race, counted: player index pi against the first n house indices. */
  lemma {:induction false} RowCounts(d: seq<real>, A: seq<seq<int>>, den: nat, pc: int, hc: int, r: nat,
                                     pi: nat, n: nat, g: int -> int)
    requires 1 <= den && pi < |d| && n <= |d|
    requires CountsOf(d, A, r, den)
    requires forall t :: g(t) == (if pc + r + pi > hc + t then 1 else 0)
    ensures RowMass(d, d, pc + r, hc + r, Win, pi, n)
         == (CountTotal(A, r + pi) * Grouped(A, g, r, n)) as real / (den * den) as real
    decreases n
  {
    var cp := CountTotal(A, r + pi);
    if n > 0 {
      var hi := n - 1;
      var ch := CountTotal(A, r + hi);
      var before := Grouped(A, g, r, hi);
      var acc := RowMass(d, d, pc + r, hc + r, Win, pi, hi);
      assert acc == (cp * before) as real / (den * den) as real by {
        RowCounts(d, A, den, pc, hc, r, pi, hi, g);
      }
      if pc + r + pi > hc + r + hi {
        assert Grouped(A, g, r, n) == before + ch by {
          assert g(r + hi) == 1;
        }
        assert RowMass(d, d, pc + r, hc + r, Win, pi, n) == acc + d[pi] * d[hi];
        RowStep(acc, d[pi], d[hi], cp, ch, before, Grouped(A, g, r, n), den);
        assert RowMass(d, d, pc + r, hc + r, Win, pi, n) == (cp * Grouped(A, g, r, n)) as real / (den * den) as real;
      } else {
        assert Grouped(A, g, r, n) == before by {
          assert g(r + hi) == 0;
        }
        assert RowMass(d, d, pc + r, hc + r, Win, pi, n) == acc;
      }
    } else {
      assert cp * Grouped(A, g, r, 0) == 0;
    }
  }

  /** One winning cell added to a counted row: cp·ch more pairs. */
  lemma RowStep(acc: real, x: real, y: real, cp: int, ch: int, before: int, total: int, den: nat)
    requires 1 <= den && total == before + ch
    requires acc == (cp * before) as real / (den * den) as real
    requires x == cp as real / den as real && y == ch as real / den as real
    ensures acc + x * y == (cp * total) as real / (den * den) as real
  {
    DivTimes(cp, den, ch, den);
    DivSplit(cp * before, cp * ch, den * den);
    assert cp * total == cp * before + cp * ch;
  }

  /** The first m rows of the race, counted: the pairs whose player sequence totals
      r + pi for some pi < m and beats its house sequence. */
  lemma {:induction false} GridCounts(d: seq<real>, A: seq<seq<int>>, den: nat, pc: int, hc: int, r: nat,
                                      m: nat, G: int -> int)
    requires 1 <= den && m <= |d|
    requires CountsOf(d, A, r, den)
    requires forall j :: 0 <= j < |A| ==> r <= SumInts(A[j]) < r + |d|
    requires forall t :: G(t) == Beaten(pc + t, hc, A)
    ensures GridMass(d, d, pc + r, hc + r, Win, m) == Grouped(A, G, r, m) as real / (den * den) as real
    decreases m
  {
    if m > 0 {
      var pi := m - 1;
      var cp := CountTotal(A, r + pi);
      var before := Grouped(A, G, r, pi);
      assert GridMass(d, d, pc + r, hc + r, Win, pi) == before as real / (den * den) as real by {
        GridCounts(d, A, den, pc, hc, r, pi, G);
      }
      assert RowMass(d, d, pc + r, hc + r, Win, pi, |d|) == (cp * G(r + pi)) as real / (den * den) as real by {
        var g := t => if pc + r + pi > hc + t then 1 else 0;
        RowCounts(d, A, den, pc, hc, r, pi, |d|, g);
        Grouping(A, g, r, |d|);
        BeatenIsSumBy(pc + r + pi, hc, A, g);
      }
      assert Grouped(A, G, r, m) == before + cp * G(r + pi);
      DivSplit(before, cp * G(r + pi), den * den);
    }
  }

  /** The engine's "exact Bayesian probability": win is the fraction of the
      sides^(2r) equally likely pairs of roll sequences (player's r dice, house's r
      dice) after which the player's final total strictly exceeds the house's. With
      AllRollsAreRolls, AllRollsComplete and AllRollsDistinct, AllRolls(r, sides) lists
      each roll sequence of r dice exactly once. */
  lemma WinCountsWinningRolls(pc: int, hc: int, r: nat, sides: nat)
    requires 1 <= sides
    ensures |AllRolls(r, sides)| * |AllRolls(r, sides)| == Pow(sides, 2 * r)
    ensures Probabilities(pc, hc, r, sides).win
         == WinningPairs(pc, hc, AllRolls(r, sides), AllRolls(r, sides)) as real / Pow(sides, 2 * r) as real
  {
    AllRollsLength(r, sides);
    PowAdd(sides, r, r);
    assert r + r == 2 * r;
    if r == 0 {
      WinCountsNoStage(pc, hc, sides);
    } else {
      WinCountsStages(pc, hc, r, sides);
    }
  }

  lemma WinCountsNoStage(pc: int, hc: int, sides: nat)
    requires 1 <= sides
    ensures Probabilities(pc, hc, 0, sides).win
         == WinningPairs(pc, hc, AllRolls(0, sides), AllRolls(0, sides)) as real / Pow(sides, 0) as real
  {
    var A := AllRolls(0, sides);
    assert A == [[]];
    assert A[..0] == [];
    assert WinningPairs(pc, hc, A, A) == Beaten(pc, hc, A);
    assert Beaten(pc, hc, A) == if pc > hc then 1 else 0;
  }

  lemma WinCountsStages(pc: int, hc: int, r: nat, sides: nat)
    requires 1 <= sides && 1 <= r
    ensures Probabilities(pc, hc, r, sides).win
         == WinningPairs(pc, hc, AllRolls(r, sides), AllRolls(r, sides)) as real
            / (Pow(sides, r) * Pow(sides, r)) as real
  {
    var A := AllRolls(r, sides);
    var d := FutureDist(r, sides);
    var G := t => Beaten(pc + t, hc, A);
    assert Probabilities(pc, hc, r, sides).win == GridMass(d, d, pc + r, hc + r, Win, |d|);
    DistributionCountsRolls(r, sides);
    AllRollsTotals(r, sides);
    GridCounts(d, A, Pow(sides, r), pc, hc, r, |d|, G);
    Grouping(A, G, r, |d|);
    WinningPairsIsSumBy(pc, hc, A, A, G);
  }
}
