/** The match metrics of src/metrics.py: winrate in big blinds per 100
    hands, the simple exploitability estimate, the summary record of a
    match and the exploitability range over several matches. Profits are
    exact reals. */
module Metrics {
  import opened Wrappers
  import opened Dicts

  /** One played hand: its id, the profit in big blinds and the action log. */
  datatype HandResult = HandResult(handId: int, profit: real, actions: seq<string>)

  datatype MatchMetrics = MatchMetrics(winrateBb100: real, exploitability: real, variance: real,
                                       handCount: nat, totalProfit: real, minProfit: real,
                                       maxProfit: real)

  /** `[r.profit for r in results]` */
  function Profits(results: seq<HandResult>): (ps: seq<real>)
    ensures |ps| == |results| && forall i :: 0 <= i < |ps| ==> ps[i] == results[i].profit
  {
    seq(|results|, i requires 0 <= i < |results| => results[i].profit)
  }

  /** A sum of `n` terms lies between `n` times the lowest and `n` times the highest bound. */
  lemma {:induction false} SumBetween(xs: seq<real>, lo: real, hi: real)
    requires forall i :: 0 <= i < |xs| ==> lo <= xs[i] <= hi
    ensures |xs| as real * lo <= Sum(xs) <= |xs| as real * hi
  {
    if |xs| > 0 {
      SumBetween(xs[..|xs| - 1], lo, hi);
    }
  }

  /** `calculate_winrate` */
  function CalculateWinrate(results: seq<HandResult>): (w: real)
    ensures |results| == 0 ==> w == 0.0
    ensures |results| > 0 ==> w * |results| as real == 100.0 * Sum(Profits(results))
  {
    if |results| == 0 then 0.0
    else (Sum(Profits(results)) / |results| as real) * 100.0
  }

  /** The winrate is 100 times a value between the lowest and highest profit. */
  lemma WinrateBetween(results: seq<HandResult>, lo: real, hi: real)
    requires |results| > 0
    requires forall i :: 0 <= i < |results| ==> lo <= results[i].profit <= hi
    ensures 100.0 * lo <= CalculateWinrate(results) <= 100.0 * hi
  {
    var ps := Profits(results);
    var n := |results| as real;
    SumBetween(ps, lo, hi);
    assert |ps| as real == n;
    DivideBetween(Sum(ps), n, lo, hi);
  }

  lemma DivideBetween(s: real, n: real, lo: real, hi: real)
    requires n > 0.0 && n * lo <= s <= n * hi
    ensures lo <= s / n <= hi
  {
    var a := s / n;
    assert a * n == s;
  }

  /** `calculate_exploitability_simple`: zero for a non-negative winrate,
      else the loss relative to `theoretical_max`, capped at 1. Dividing
      happens only for a negative winrate. */
  function ExploitabilitySimple(w: real, theoreticalMax: real): (e: real)
    requires w < 0.0 ==> theoreticalMax != 0.0
    ensures w >= 0.0 ==> e == 0.0
    ensures theoreticalMax > 0.0 ==> 0.0 <= e <= 1.0
    ensures e <= 1.0
  {
    if w >= 0.0 then 0.0
    else
      var x := -w / theoreticalMax;
      if 1.0 <= x then 1.0 else x
  }

  const TheoreticalMax: real := 10.0

  /** A lower winrate never gives a lower exploitability, and a loss of at
      least the theoretical maximum gives exactly 1. */
  lemma ExploitabilityMonotone(w1: real, w2: real, tm: real)
    requires tm > 0.0 && w1 <= w2
    ensures ExploitabilitySimple(w1, tm) >= ExploitabilitySimple(w2, tm)
    ensures w1 <= -tm ==> ExploitabilitySimple(w1, tm) == 1.0
    ensures -tm < w1 < 0.0 ==> 0.0 < ExploitabilitySimple(w1, tm) < 1.0
  {
    if w2 < 0.0 {
      assert -w1 / tm >= -w2 / tm;
    }
    if w1 <= -tm {
      assert -w1 / tm >= tm / tm == 1.0;
    }
    if -tm < w1 < 0.0 {
      assert 0.0 < -w1 / tm < tm / tm;
    }
  }

  /** `min(profits)`: the first smallest value. */
  function MinOf(xs: seq<real>): (m: real)
    requires |xs| > 0
    ensures m in xs && forall i :: 0 <= i < |xs| ==> m <= xs[i]
  {
    if |xs| == 1 then xs[0]
    else
      var m := MinOf(xs[..|xs| - 1]);
      assert m in xs[..|xs| - 1];
      if xs[|xs| - 1] < m then xs[|xs| - 1] else m
  }

  /** `max(profits)`: the first largest value. */
  function MaxOf(xs: seq<real>): (m: real)
    requires |xs| > 0
    ensures m in xs && forall i :: 0 <= i < |xs| ==> xs[i] <= m
  {
    if |xs| == 1 then xs[0]
    else
      var m := MaxOf(xs[..|xs| - 1]);
      assert m in xs[..|xs| - 1];
      if xs[|xs| - 1] > m then xs[|xs| - 1] else m
  }

  function SquaredDeviations(xs: seq<real>, mean: real): (ds: seq<real>)
    ensures |ds| == |xs| && forall i :: 0 <= i < |xs| ==> ds[i] == (xs[i] - mean) * (xs[i] - mean)
  {
    seq(|xs|, i requires 0 <= i < |xs| => (xs[i] - mean) * (xs[i] - mean))
  }

  lemma DeviationsNonNegative(xs: seq<real>, mean: real)
    ensures forall i :: 0 <= i < |xs| ==> SquaredDeviations(xs, mean)[i] >= 0.0
  {
    var ds := SquaredDeviations(xs, mean);
    forall i | 0 <= i < |xs| ensures ds[i] >= 0.0 {
      SquareNonNegative(xs[i] - mean);
    }
  }

  lemma SquareNonNegative(x: real)
    ensures x * x >= 0.0
  {
    if x < 0.0 {
      assert x * x == (-x) * (-x);
    }
  }

  /** `calculate_variance`: the population variance (`np.var`), in exact reals. */
  function CalculateVariance(results: seq<HandResult>): (v: real)
    ensures v >= 0.0
  {
    if |results| == 0 then 0.0
    else
      var ps := Profits(results);
      var n := |results| as real;
      var ds := SquaredDeviations(ps, Sum(ps) / n);
      DeviationsNonNegative(ps, Sum(ps) / n);
      SumNonNegative(ds);
      Sum(ds) / n
  }

  /** `calculate_metrics`; without a winrate against GTO the match's own
      winrate stands in for it. */
  function CalculateMetrics(results: seq<HandResult>, winrateVsGto: Option<real>): (m: MatchMetrics)
    ensures |results| == 0 ==> m == MatchMetrics(0.0, 0.0, 0.0, 0, 0.0, 0.0, 0.0)
    ensures |results| > 0 ==> m.handCount == |results| && m.totalProfit == Sum(Profits(results))
    ensures |results| > 0 ==> m.winrateBb100 == CalculateWinrate(results)
    ensures forall i :: 0 <= i < |results| ==> m.minProfit <= results[i].profit <= m.maxProfit
    ensures |results| > 0 ==> m.minProfit in Profits(results) && m.maxProfit in Profits(results)
    ensures 0.0 <= m.exploitability <= 1.0 && m.variance >= 0.0
    ensures winrateVsGto.None? ==> m.exploitability == ExploitabilitySimple(m.winrateBb100, TheoreticalMax)
    ensures winrateVsGto.Some? && |results| > 0 ==>
      m.exploitability == ExploitabilitySimple(winrateVsGto.value, TheoreticalMax)
  {
    if |results| == 0 then MatchMetrics(0.0, 0.0, 0.0, 0, 0.0, 0.0, 0.0)
    else
      var ps := Profits(results);
      var winrate := CalculateWinrate(results);
      var exploitability := ExploitabilitySimple(winrateVsGto.GetOr(winrate), TheoreticalMax);
      MatchMetrics(winrate, exploitability, CalculateVariance(results), |results|, Sum(ps),
                   MinOf(ps), MaxOf(ps))
  }

  function Exploitabilities(ms: seq<MatchMetrics>): (es: seq<real>)
    ensures |es| == |ms| && forall i :: 0 <= i < |ms| ==> es[i] == ms[i].exploitability
  {
    seq(|ms|, i requires 0 <= i < |ms| => ms[i].exploitability)
  }

  /** `calculate_exploitability_range` */
  function ExploitabilityRange(ms: seq<MatchMetrics>): (r: (real, real))
    ensures |ms| == 0 ==> r == (0.0, 0.0)
    ensures r.0 <= r.1
    ensures forall i :: 0 <= i < |ms| ==> r.0 <= ms[i].exploitability <= r.1
    ensures |ms| > 0 ==> r.0 in Exploitabilities(ms) && r.1 in Exploitabilities(ms)
  {
    if |ms| == 0 then (0.0, 0.0)
    else
      var es := Exploitabilities(ms);
      (MinOf(es), MaxOf(es))
  }
}
