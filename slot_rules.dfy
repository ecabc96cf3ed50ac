/** The rules both slot machines share: seven reel symbols drawn with fixed
    weights, and a payout multiplier for three of a kind. The random draw
    `Math.random()` is the parameter `draw`, a real number; the weights are
    the exact decimals of the table (0.25 is 25/100), so floating-point
    rounding of the running sum is not modelled. */
module SlotRules {

  datatype Symbol = Cherry | Lemon | Orange | Grapes | Bell | Star | Diamond

  /** The `symbols` array, in order. */
  const Symbols: seq<Symbol> := [Cherry, Lemon, Orange, Grapes, Bell, Star, Diamond]

  /** The `weights` array: one weight per symbol, same order. */
  const Weights: seq<real> := [0.25, 0.20, 0.15, 0.12, 0.10, 0.08, 0.10]

  /** The running sum of the first `n` weights. */
  function Cumulative(n: nat): (c: real)
    requires n <= |Weights|
    ensures c >= 0.0
  {
    if n == 0 then 0.0 else Cumulative(n - 1) + Weights[n - 1]
  }

  /** One weight per symbol, every weight positive, and together they make 1. */
  lemma WeightsTable()
    ensures |Weights| == |Symbols| == 7
    ensures forall i :: 0 <= i < |Weights| ==> Weights[i] > 0.0
    ensures Cumulative(|Weights|) == 1.0
    ensures forall i, j :: 0 <= i < j < |Symbols| ==> Symbols[i] != Symbols[j]
  {
  }

  /** The running sum only grows. */
  lemma {:induction false} CumulativeMonotone(m: nat, n: nat)
    requires m <= n <= |Weights|
    ensures Cumulative(m) <= Cumulative(n)
    decreases n - m
  {
    if m < n {
      CumulativeMonotone(m, n - 1);
    }
  }

  /** The index the loop of `getRandomSymbol` stops at, scanning from
      `from`: the first `i` whose running sum reaches the draw, or 0 when
      none does. */
  function WeightedIndex(draw: real, from: nat): (k: nat)
    requires from <= |Weights|
    ensures k < |Symbols|
    decreases |Weights| - from
  {
    if from == |Weights| then 0
    else if draw <= Cumulative(from + 1) then from
    else WeightedIndex(draw, from + 1)
  }

  /** The symbol a draw selects. */
  function WeightedSymbol(draw: real): Symbol
  {
    Symbols[WeightedIndex(draw, 0)]
  }

  /** Scanning on from `from` when no earlier running sum reached the draw. */
  lemma {:induction false} WeightedIndexFrom(draw: real, from: nat)
    requires from <= |Weights|
    requires forall j :: 1 <= j <= from ==> draw > Cumulative(j)
    ensures var k := WeightedIndex(draw, from);
      || (draw <= Cumulative(k + 1) && from <= k && forall j :: 1 <= j <= k ==> draw > Cumulative(j))
      || (k == 0 && forall j :: 1 <= j <= |Weights| ==> draw > Cumulative(j))
    decreases |Weights| - from
  {
    if from == |Weights| {
      assert WeightedIndex(draw, from) == 0;
    } else if draw <= Cumulative(from + 1) {
      assert WeightedIndex(draw, from) == from;
    } else {
      assert WeightedIndex(draw, from) == WeightedIndex(draw, from + 1);
      WeightedIndexFrom(draw, from + 1);
    }
  }

  /** The selected index is the FIRST one whose running sum covers the draw;
      only a draw above the total weight falls back to index 0. */
  lemma WeightedIndexIsFirstCovering(draw: real)
    ensures var k := WeightedIndex(draw, 0);
      || (draw <= Cumulative(k + 1) && forall j :: 1 <= j <= k ==> draw > Cumulative(j))
      || (k == 0 && draw > Cumulative(|Weights|))
  {
    WeightedIndexFrom(draw, 0);
  }

  /** For a draw in [0, 1) the selected symbol is the one whose band
      (Cumulative(k), Cumulative(k + 1)] holds the draw, so each symbol is
      chosen on a band exactly as wide as its weight (the band of the first
      symbol also holds 0). */
  lemma DrawFallsInBand(draw: real)
    requires 0.0 <= draw < 1.0
    ensures var k := WeightedIndex(draw, 0);
      && draw <= Cumulative(k + 1)
      && (k == 0 || Cumulative(k) < draw)
      && Cumulative(k + 1) - Cumulative(k) == Weights[k]
  {
    WeightsTable();
    WeightedIndexIsFirstCovering(draw);
    var k := WeightedIndex(draw, 0);
    if k > 0 {
      assert draw > Cumulative(k);
    }
  }

  /** `getRandomSymbol`: accumulate the weights in order and stop at the
      first running sum that reaches the draw; fall back to the first symbol. */
  method GetRandomSymbol(draw: real) returns (s: Symbol)
    ensures s == WeightedSymbol(draw)
    ensures s in Symbols
  {
    var sum := 0.0;
    for i := 0 to |Symbols|
      invariant sum == Cumulative(i)
      invariant WeightedIndex(draw, i) == WeightedIndex(draw, 0)
    {
      sum := sum + Weights[i];
      if draw <= sum {
        return Symbols[i];
      }
    }
    return Symbols[0];
  }

  /** The `payouts` table, keyed by the three symbols joined together. */
  const Payouts: map<seq<Symbol>, nat> := map[
    [Diamond, Diamond, Diamond] := 100,
    [Star, Star, Star] := 50,
    [Bell, Bell, Bell] := 25,
    [Grapes, Grapes, Grapes] := 10,
    [Orange, Orange, Orange] := 5,
    [Lemon, Lemon, Lemon] := 3,
    [Cherry, Cherry, Cherry] := 2
  ]

  /** The multipliers the table can pay. */
  const PayoutValues: set<nat> := {2, 3, 5, 10, 25, 50, 100}

  /** Every symbol's triple has an entry in the table, and it is nonzero. */
  lemma TripleInTable(s: Symbol)
    ensures [s, s, s] in Payouts && Payouts[[s, s, s]] in PayoutValues
  {
    match s
    case Cherry =>
    case Lemon =>
    case Orange =>
    case Grapes =>
    case Bell =>
    case Star =>
    case Diamond =>
  }

  /** `calculateWin`: the table's multiplier when the three reels agree and
      the combination has a (nonzero) entry, 0 otherwise. */
  function CalculateWin(result: seq<Symbol>): (multiplier: nat)
    requires |result| == 3
    ensures multiplier != 0 <==> result[0] == result[1] == result[2]
    ensures multiplier == 0 || multiplier in PayoutValues
    ensures result[0] == result[1] == result[2] ==> result in Payouts && multiplier == Payouts[result]
  {
    TripleInTable(result[0]);
    assert result[0] == result[1] == result[2] ==> result == [result[0], result[0], result[0]];
    if result[0] == result[1] && result[1] == result[2] && result in Payouts && Payouts[result] != 0 then
      Payouts[result]
    else
      0
  }

  /** Three diamonds pay 100, three cherries 2, and a pair with a third
      symbol pays nothing. */
  lemma CalculateWinExamples()
    ensures CalculateWin([Diamond, Diamond, Diamond]) == 100
    ensures CalculateWin([Cherry, Cherry, Cherry]) == 2
    ensures CalculateWin([Cherry, Cherry, Lemon]) == 0
  {
  }

  /** The amount a spin pays out: the stake times the multiplier when there
      is one. For a positive stake it is never negative, and it is positive
      exactly on a win. */
  function WinAmount(bet: int, multiplier: nat): (win: int)
    ensures bet > 0 ==> win >= 0 && (win > 0 <==> multiplier > 0)
    ensures multiplier == 0 ==> win == 0
  {
    if multiplier > 0 then bet * multiplier else 0
  }

  /** A spin's refusals, in the order the guards are tried, or a spin. */
  datatype SpinOutcome = AlreadySpinning | InsufficientBalance | NoBet | Spun

  /** The multiplier for the reels the three draws select. */
  function ReelsMultiplier(d1: real, d2: real, d3: real): nat
  {
    CalculateWin([WeightedSymbol(d1), WeightedSymbol(d2), WeightedSymbol(d3)])
  }
}
