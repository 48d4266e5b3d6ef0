/** src/strategies/robust_mashup_nobinary.py: the opponent range of
    `EMRangeModel` (the 169 hand labels with their weights, the Bayesian
    reweighting and the rough strength of a label) and the decisions of
    `RobustMashupNoBinaryStrategy`. The file counts ranks from the deuce,
    "23456789TJQKA", so a larger index is a higher rank; the labels it
    writes are those of `CardUtils`, higher rank first. Its preflop score
    is the one of `GTOApproxBot`. */
module RobustMashup {
  import opened Wrappers
  import opened Dicts
  import opened BurnKnobs
  import opened StrategyBase
  import opened Rmball
  import GtoApprox

  // ------------------------------------------------------------------
  // The label table of `_init_weights`
  // ------------------------------------------------------------------

  /** The place `_init_weights` gives a label: by its lower rank, then its
      higher rank, the suited label just before the offsuit one. */
  function Ord(l: string): nat
    requires IsHandLabel(l)
  {
    26 * (12 - Idx(l[1])) + 2 * (12 - Idx(l[0])) + (if |l| == 3 && l[2] == 'o' then 1 else 0)
  }

  /** Hand labels in strictly increasing `Ord`, all of it below `bound`. */
  predicate Ascending(labels: seq<string>, bound: nat) {
    (forall k :: 0 <= k < |labels| ==> IsHandLabel(labels[k]) && Ord(labels[k]) < bound) &&
    (forall a, b :: 0 <= a < b < |labels| ==> Ord(labels[a]) < Ord(labels[b]))
  }

  lemma AscendingSnoc(labels: seq<string>, bound: nat, l: string, bound': nat)
    requires Ascending(labels, bound) && IsHandLabel(l) && bound <= Ord(l) < bound'
    ensures Ascending(labels + [l], bound')
  {
  }

  /** `r1 + r2` for the pair of rank `i`. */
  lemma PairCell(i: nat)
    requires i < 13
    ensures IsHandLabel([GtoApprox.AscChar(i), GtoApprox.AscChar(i)]) && Ord([GtoApprox.AscChar(i), GtoApprox.AscChar(i)]) == 28 * i
  {
    RankAtHigh(12 - i);
  }

  /** `self.ranks[j] + self.ranks[i] + c` for `i < j`. */
  lemma NonPairCell(i: nat, j: nat, c: char)
    requires i < j < 13 && (c == 's' || c == 'o')
    ensures IsHandLabel([GtoApprox.AscChar(j), GtoApprox.AscChar(i), c])
    ensures Ord([GtoApprox.AscChar(j), GtoApprox.AscChar(i), c]) == 26 * i + 2 * j + (if c == 'o' then 1 else 0)
  {
    var l := [GtoApprox.AscChar(j), GtoApprox.AscChar(i), c];
    RankAtHigh(12 - i);
    RankAtHigh(12 - j);
    assert Idx(l[0]) == 12 - j && Idx(l[1]) == 12 - i;
  }

  lemma RowCount(i: nat)
    requires i < 13
    ensures i * (26 - i) + 2 * (13 - i) - 1 == (i + 1) * (25 - i)
  {
  }

  /** The inner loop of `_init_weights` for `r1 = self.ranks[i]`. */
  method AppendRow(labels: seq<string>, i: nat) returns (r: seq<string>)
    requires i < 13 && Ascending(labels, 26 * i) && |labels| == i * (26 - i)
    ensures Ascending(r, 26 * (i + 1)) && |r| == (i + 1) * (25 - i)
  {
    r := labels;
    for j := i to 13
      invariant Ascending(r, 26 * i + 2 * j)
      invariant |r| == i * (26 - i) + (if j == i then 0 else 2 * (j - i) - 1)
    {
      GtoApprox.AscIdxOf(i);
      GtoApprox.AscIdxOf(j);
      if GtoApprox.AscChar(i) == GtoApprox.AscChar(j) {
        PairCell(i);
        AscendingSnoc(r, 26 * i + 2 * j, [GtoApprox.AscChar(i), GtoApprox.AscChar(j)], 26 * i + 2 * (j + 1));
        r := r + [[GtoApprox.AscChar(i), GtoApprox.AscChar(j)]];
      } else {
        NonPairCell(i, j, 's');
        NonPairCell(i, j, 'o');
        var suited, offsuit := [GtoApprox.AscChar(j), GtoApprox.AscChar(i), 's'], [GtoApprox.AscChar(j), GtoApprox.AscChar(i), 'o'];
        AscendingSnoc(r, 26 * i + 2 * j, suited, 26 * i + 2 * j + 1);
        AscendingSnoc(r + [suited], 26 * i + 2 * j + 1, offsuit, 26 * i + 2 * (j + 1));
        r := r + [suited] + [offsuit];
      }
    }
    RowCount(i);
  }

  /** The label list of `_init_weights`: 169 hand labels, each once, in
      the order of `Ord`. */
  method InitLabels() returns (labels: seq<string>)
    ensures |labels| == 169 && Ascending(labels, 338)
  {
    labels := [];
    for i := 0 to 13
      invariant Ascending(labels, 26 * i) && |labels| == i * (26 - i)
    {
      labels := AppendRow(labels, i);
    }
  }

  lemma {:induction false} ImageSize(xs: seq<nat>)
    requires forall a, b :: 0 <= a < b < |xs| ==> xs[a] != xs[b]
    ensures |set k | 0 <= k < |xs| :: xs[k]| == |xs|
  {
    if |xs| > 0 {
      var init := xs[..|xs| - 1];
      ImageSize(init);
      var s := set k | 0 <= k < |init| :: init[k];
      assert (set k | 0 <= k < |xs| :: xs[k]) == s + {xs[|xs| - 1]};
      assert xs[|xs| - 1] !in s;
    }
  }

  /** The numbers below `n`. */
  function Below(n: nat): (r: set<nat>)
    ensures |r| == n && forall m: nat :: m in r <==> m < n
  {
    if n == 0 then {} else Below(n - 1) + {n - 1}
  }

  lemma SubsetSameSize(a: set<nat>, b: set<nat>)
    requires a <= b && |a| == |b|
    ensures a == b
  {
    assert a + (b - a) == b;
    assert a * (b - a) == {};
    assert |b - a| == 0;
  }

  /** 169 different hand labels are all of them. */
  lemma EveryLabelListed(labels: seq<string>, l: string)
    requires |labels| == 169 && Ascending(labels, 338)
    requires IsHandLabel(l)
    ensures l in labels
  {
    var idx := seq(169, k requires 0 <= k < 169 => HandIndex(labels[k]));
    forall a, b | 0 <= a < b < 169 ensures idx[a] != idx[b] {
      if idx[a] == idx[b] {
        HandIndexInjective(labels[a], labels[b]);
      }
    }
    ImageCovers(idx, 169);
    assert HandIndex(l) in idx;
    var k :| 0 <= k < 169 && idx[k] == HandIndex(l);
    HandIndexInjective(labels[k], l);
  }

  /** `n` distinct numbers below `n` take every value below `n`. */
  lemma ImageCovers(xs: seq<nat>, n: nat)
    requires |xs| == n && forall k :: 0 <= k < n ==> xs[k] < n
    requires forall a, b :: 0 <= a < b < |xs| ==> xs[a] != xs[b]
    ensures forall m :: 0 <= m < n ==> m in xs
  {
    ImageSize(xs);
    var image := set k | 0 <= k < |xs| :: xs[k];
    SubsetSameSize(image, Below(n));
    forall m | 0 <= m < n ensures m in xs {
      assert m in image;
    }
  }

  /** `{label: 1.0 for label in labels}` */
  function UnitRange(labels: seq<string>): (w: Dict<string, real>)
    ensures UniqueKeys(w)
  {
    FromPairs(seq(|labels|, k requires 0 <= k < |labels| => (labels[k], 1.0)))
  }

  lemma UnitRangeOf(labels: seq<string>)
    requires Ascending(labels, 338)
    ensures |UnitRange(labels)| == |labels| && Keys(UnitRange(labels)) == labels
    ensures forall k :: 0 <= k < |labels| ==> UnitRange(labels)[k] == (labels[k], 1.0)
  {
    forall a, b | 0 <= a < b < |labels| ensures labels[a] != labels[b] {
      assert Ord(labels[a]) < Ord(labels[b]);
    }
    ConstantPairs(labels, 1.0);
  }

  /** Pairs of distinct keys with one value are their own comprehension. */
  lemma ConstantPairs<K>(ks: seq<K>, v: real)
    requires forall a, b :: 0 <= a < b < |ks| ==> ks[a] != ks[b]
    ensures var ps := seq(|ks|, k requires 0 <= k < |ks| => (ks[k], v));
      FromPairs(ps) == ps && Keys(ps) == ks
  {
    var ps := seq(|ks|, k requires 0 <= k < |ks| => (ks[k], v));
    assert UniqueKeys(ps);
    FromPairsDistinct(ps);
    var keys := Keys(ps);
    assert keys == ks;
  }

  // ------------------------------------------------------------------
  // Strength of a label and the Bayesian update
  // ------------------------------------------------------------------

  /** `_get_rough_strength`: the two rank indices over 24. */
  function RoughStrength(hand: string): (r: Result<real, LabelError>)
    ensures r.Ok? <==> |hand| >= 2 && IsRank(hand[0]) && IsRank(hand[1])
    ensures r.Ok? ==> 0.0 <= r.value <= 1.0
    ensures r.Ok? ==> (r.value == 1.0 <==> hand[0] == 'A' && hand[1] == 'A')
    ensures r.Ok? ==> (r.value == 0.0 <==> hand[0] == '2' && hand[1] == '2')
  {
    if |hand| < 1 then Err(IndexError)
    else match GtoApprox.AscIdx(hand[0])
      case None => Err(ValueError)
      case Some(r1) =>
        if |hand| < 2 then Err(IndexError)
        else match GtoApprox.AscIdx(hand[1])
          case None => Err(ValueError)
          case Some(r2) =>
            GtoApprox.AscIdxOf(0);
            GtoApprox.AscIdxOf(12);
            Ok((r1 + r2) as real / 24.0)
  }

  /** Swapping the two ranks keeps the strength. */
  lemma RoughStrengthSymmetric(hand: string)
    requires |hand| >= 2
    ensures RoughStrength([hand[1], hand[0]] + hand[2..]).Ok? ==>
      RoughStrength([hand[1], hand[0]] + hand[2..]) == RoughStrength(hand)
  {
  }

  /** Higher ranks never make a label weaker. */
  lemma RoughStrengthMonotone(a: string, b: string)
    requires RoughStrength(a).Ok? && RoughStrength(b).Ok?
    requires Idx(b[0]) <= Idx(a[0]) && Idx(b[1]) <= Idx(a[1])
    ensures RoughStrength(a).value <= RoughStrength(b).value
  {
  }

  /** The strength of a label of the table. */
  function KeyStrength(l: string): (s: real)
    requires IsHandLabel(l)
    ensures 0.0 <= s <= 1.0
  {
    RoughStrength(l).value
  }

  /** The likelihood `update` gives a label of strength `s`; `exp` is `math.exp`. */
  function Likelihood(action: string, s: real, exp: real -> real): real {
    if action == "raise" || action == "bet" then
      exp(-(s - 0.8) * (s - 0.8) / 0.2) + 0.2 * exp(-(s - 0.2) * (s - 0.2) / 0.1)
    else if action == "call" then exp(-(s - 0.5) * (s - 0.5) / 0.15)
    else if action == "fold" then exp(-(s - 0.1) * (s - 0.1) / 0.4)
    else 0.5
  }

  lemma LikelihoodPositive(action: string, s: real, exp: real -> real)
    requires forall x :: exp(x) > 0.0
    ensures Likelihood(action, s, exp) > 0.0
  {
  }

  /** A range: hand-label keys, each once, with positive weights. */
  predicate IsRange(w: Dict<string, real>) {
    UniqueKeys(w) && forall i :: 0 <= i < |w| ==> IsHandLabel(w[i].0) && w[i].1 > 0.0
  }

  /** The weights after the multiplication loop of `update`. */
  function Reweighted(w: Dict<string, real>, action: string, exp: real -> real): (r: Dict<string, real>)
    requires forall i :: 0 <= i < |w| ==> IsHandLabel(w[i].0)
    ensures |r| == |w|
    ensures forall i :: 0 <= i < |w| ==> r[i] == Reweigh(w[i], action, exp)
  {
    seq(|w|, i requires 0 <= i < |w| => Reweigh(w[i], action, exp))
  }

  /** `self.weights[label] *= likelihood` for one entry. */
  function Reweigh(entry: (string, real), action: string, exp: real -> real): (r: (string, real))
    requires IsHandLabel(entry.0)
  {
    (entry.0, entry.1 * Likelihood(action, KeyStrength(entry.0), exp))
  }

  lemma PositiveTotal(w: Dict<string, real>)
    requires IsRange(w) && |w| > 0
    ensures Total(w) > 0.0
  {
    SumBoundsTerm(Values(w), 0);
  }

  /** An update keeps a range a range, and leaves its weights summing to 1. */
  lemma UpdateKeepsRange(w: Dict<string, real>, action: string, exp: real -> real)
    requires IsRange(w) && |w| > 0 && forall x :: exp(x) > 0.0
    ensures IsRange(Rescale(Reweighted(w, action, exp)))
    ensures Keys(Rescale(Reweighted(w, action, exp))) == Keys(w)
    ensures Total(Rescale(Reweighted(w, action, exp))) == 1.0
  {
    var m := Reweighted(w, action, exp);
    ReweightedRange(w, action, exp);
    PositiveTotal(m);
    RescaleFacts(m);
    DivideRange(m, Total(m));
  }

  lemma ReweightedRange(w: Dict<string, real>, action: string, exp: real -> real)
    requires IsRange(w) && forall x :: exp(x) > 0.0
    ensures IsRange(Reweighted(w, action, exp))
  {
    var m := Reweighted(w, action, exp);
    forall i | 0 <= i < |m| ensures IsHandLabel(m[i].0) && m[i].1 > 0.0 {
      LikelihoodPositive(action, KeyStrength(w[i].0), exp);
      assert m[i] == Reweigh(w[i], action, exp);
    }
    assert Keys(m) == Keys(w);
    forall a, b | 0 <= a < b < |m| ensures m[a].0 != m[b].0 {
      assert Keys(m)[a] == w[a].0 && Keys(m)[b] == w[b].0;
    }
  }

  lemma DivideRange(w: Dict<string, real>, t: real)
    requires IsRange(w) && t > 0.0
    ensures IsRange(Divide(w, t)) && Keys(Divide(w, t)) == Keys(w)
  {
    var r := Divide(w, t);
    SameKeys(w, r);
    forall i | 0 <= i < |r| ensures r[i].1 > 0.0 {
      DivPositive(w[i].1, t);
    }
  }

  lemma DivPositive(a: real, t: real)
    requires a > 0.0 && t > 0.0
    ensures a / t > 0.0
  {
  }

  /** `EMRangeModel`: the opponent's range as label weights. */
  class EMRangeModel {
    var weights: Dict<string, real>

    predicate Valid()
      reads this
    {
      IsRange(weights) && |weights| == 169
    }

    /** `__init__`: every hand label once, weight 1.0, in the order of `Ord`. */
    constructor()
      ensures Valid()
      ensures Ascending(Keys(weights), 338)
      ensures forall l :: IsHandLabel(l) ==> HasKey(weights, l)
      ensures forall i :: 0 <= i < |weights| ==> weights[i].1 == 1.0
    {
      var labels := InitLabels();
      UnitRangeOf(labels);
      new;
      weights := UnitRange(labels);
      forall l | IsHandLabel(l) ensures HasKey(weights, l) {
        EveryLabelListed(labels, l);
        var k :| 0 <= k < |labels| && labels[k] == l;
        assert weights[k].0 == l;
      }
    }

    /** `update`: multiply every weight by its likelihood, then divide by
        the total when it is positive. `bet_ratio` is computed and never
        used, so the street and the amounts play no part. */
    method Update(action: string, exp: real -> real)
      requires Valid() && forall x :: exp(x) > 0.0
      modifies this
      ensures Valid() && Total(weights) == 1.0
      ensures weights == Rescale(Reweighted(old(weights), action, exp))
    {
      ghost var w0 := weights;
      var target := Reweighted(w0, action, exp);
      var i := 0;
      while i < |weights|
        invariant |weights| == |w0| && 0 <= i <= |w0|
        invariant forall k :: 0 <= k < |w0| ==> weights[k] == (if k < i then target[k] else w0[k])
      {
        weights := weights[i := Reweigh(weights[i], action, exp)];
        i := i + 1;
      }
      assert weights == target;
      var total := Total(weights);
      if total > 0.0 {
        var scaled := Divide(target, total);
        i := 0;
        while i < |weights|
          invariant |weights| == |w0| && 0 <= i <= |w0|
          invariant forall k :: 0 <= k < |w0| ==> weights[k] == (if k < i then scaled[k] else target[k])
        {
          weights := weights[i := (weights[i].0, weights[i].1 / total)];
          i := i + 1;
        }
        assert weights == scaled;
      }
      UpdateKeepsRange(w0, action, exp);
    }
  }

  // ------------------------------------------------------------------
  // Postflop
  // ------------------------------------------------------------------

  /** The terms of `avg_opp_strength`: strength times weight, label by label. */
  function StrengthTerms(w: Dict<string, real>): (ts: seq<real>)
    requires forall i :: 0 <= i < |w| ==> IsHandLabel(w[i].0)
    ensures |ts| == |w| && forall i :: 0 <= i < |w| ==> ts[i] == KeyStrength(w[i].0) * w[i].1
  {
    seq(|w|, i requires 0 <= i < |w| => KeyStrength(w[i].0) * w[i].1)
  }

  lemma ScaledDown(a: real, x: real)
    requires 0.0 <= a <= 1.0 && x >= 0.0
    ensures 0.0 <= a * x <= x
  {
  }

  /** `avg_opp_strength` as written: the weighted sum, which is no mean
      unless the weights sum to 1. */
  function OppStrengthSum(w: Dict<string, real>): (s: real)
    requires IsRange(w)
    ensures 0.0 <= s <= Total(w)
  {
    StrengthSumBounds(w);
    Sum(StrengthTerms(w))
  }

  lemma StrengthSumBounds(w: Dict<string, real>)
    requires IsRange(w)
    ensures 0.0 <= Sum(StrengthTerms(w)) <= Total(w)
  {
    var ts, vs := StrengthTerms(w), Values(w);
    TermsBetween(w);
    assert forall i :: 0 <= i < |w| ==> 0.0 <= ts[i] <= vs[i];
    SumNonNegative(ts);
    SumMono(ts, vs);
  }

  /** Each strength term lies between 0 and its weight. */
  lemma TermsBetween(w: Dict<string, real>)
    requires forall j :: 0 <= j < |w| ==> IsHandLabel(w[j].0) && w[j].1 > 0.0
    ensures forall i :: 0 <= i < |w| ==> 0.0 <= StrengthTerms(w)[i] <= w[i].1
  {
    forall i | 0 <= i < |w| ensures 0.0 <= StrengthTerms(w)[i] <= w[i].1 {
      TermBetween(w, i);
    }
  }

  lemma TermBetween(w: Dict<string, real>, i: nat)
    requires forall j :: 0 <= j < |w| ==> IsHandLabel(w[j].0)
    requires i < |w| && w[i].1 > 0.0
    ensures 0.0 <= StrengthTerms(w)[i] <= w[i].1
  {
    ScaledDown(KeyStrength(w[i].0), w[i].1);
  }

  lemma MeanAtMostOne(s: real, t: real)
    requires 0.0 <= s <= t && t > 0.0
    ensures 0.0 <= s / t <= 1.0
  {
  }

  /** The weighted mean strength of a range, in [0, 1]. */
  function OppStrengthMean(w: Dict<string, real>): (m: real)
    requires IsRange(w) && |w| > 0
    ensures 0.0 <= m <= 1.0
  {
    PositiveTotal(w);
    MeanAtMostOne(OppStrengthSum(w), Total(w));
    OppStrengthSum(w) / Total(w)
  }

  /** `equity = max(0, min(1.0, base_equity * (1.0 / (avg + 0.5))))`:
      a range stronger than 0.5 on average discounts the equity, a weaker
      one raises it. */
  function DiscountedEquity(base: real, avg: real): (e: real)
    requires avg >= 0.0
    ensures 0.0 <= e <= 1.0
    ensures 0.0 <= base <= 1.0 && avg >= 0.5 ==> e <= base
    ensures 0.0 <= base <= 1.0 && avg <= 0.5 ==> e >= base
  {
    Max(0.0, Min(1.0, Discount(base, avg)))
  }

  /** `base_equity * (1.0 / (avg + 0.5))` */
  function Discount(base: real, avg: real): (x: real)
    requires avg >= 0.0
    ensures 0.0 <= base && avg >= 0.5 ==> x <= base
    ensures 0.0 <= base && avg <= 0.5 ==> x >= base
  {
    var f := 1.0 / (avg + 0.5);
    if 0.0 <= base && avg >= 0.5 then
      RecipAntitone(1.0, avg + 0.5);
      MulMonotone(base, f, 1.0);
      base * f
    else if 0.0 <= base then
      RecipAntitone(avg + 0.5, 1.0);
      MulMonotone(base, 1.0, f);
      base * f
    else base * f
  }

  lemma RecipAntitone(x: real, y: real)
    requires 0.0 < x <= y
    ensures 1.0 / y <= 1.0 / x
  {
    var fx, fy := 1.0 / x, 1.0 / y;
    DivPositive(1.0, x);
    MulMonotone(fx, x, y);
    assert fy * y == 1.0 == fx * x <= fx * y;
    MulCancel(y, fy, fx);
  }

  lemma MulCancel(c: real, a: real, b: real)
    requires c > 0.0 && a * c <= b * c
    ensures a <= b
  {
  }

  lemma MulMonotone(c: real, a: real, b: real)
    requires c >= 0.0 && a <= b
    ensures c * a <= c * b
  {
  }

  /** Step 4 of `_postflop_strategy`. `alpha` is the sigmoid of the
      entropy times the pot-size decay, in [0, 1]; `draw` is
      `random.random()`. `mdf` is computed and never used. */
  function PostflopDecision(equity: real, alpha: real, pot: real, toCall: real, draw: real): (d: Distribution)
    requires toCall > 0.0 ==> pot + toCall != 0.0
    ensures IsDistribution(d)
    ensures toCall > 0.0 ==> (d == Only(Call) <==>
      equity > PotOdds(pot, toCall) * (1.0 - alpha * 0.3))
    ensures toCall > 0.0 ==> d == Only(Call) || d == Only(Fold)
    ensures toCall <= 0.0 ==> (d == Only(Raise) <==> equity > 0.7 || (equity < 0.3 && draw < 0.25 * alpha))
    ensures toCall <= 0.0 ==> d == Only(Raise) || d == Only(Call)
  {
    OnlyInjective(Call, Fold);
    OnlyInjective(Raise, Call);
    var potOdds := PotOdds(pot, toCall);
    if toCall > 0.0 then
      if equity > potOdds * (1.0 - alpha * 0.3) then Only(Call) else Only(Fold)
    else if equity > 0.7 then Only(Raise)
    else if equity < 0.3 && draw < 0.25 * alpha then Only(Raise)
    else Only(Call)
  }

  /** The bluff-catching margin only widens the defence, and by at most 30%:
      equity above the pot odds always calls, equity at or below 70% of them
      always folds. Checking is never a fold. */
  lemma DefenceBounds(equity: real, alpha: real, pot: real, toCall: real, draw: real)
    requires 0.0 <= alpha <= 1.0 && toCall > 0.0 && pot >= 0.0
    ensures equity > PotOdds(pot, toCall) ==> PostflopDecision(equity, alpha, pot, toCall, draw) == Only(Call)
    ensures equity <= 0.7 * PotOdds(pot, toCall) ==>
      PostflopDecision(equity, alpha, pot, toCall, draw) == Only(Fold)
  {
    var p := PotOdds(pot, toCall);
    var threshold := p * (1.0 - alpha * 0.3);
    DecisionFacingBet(equity, alpha, pot, toCall, draw, threshold);
    ThresholdOrder(equity, p, alpha, threshold);
  }

  /** Facing a bet the decision only compares the equity with the threshold. */
  lemma DecisionFacingBet(equity: real, alpha: real, pot: real, toCall: real, draw: real, threshold: real)
    requires toCall > 0.0 && pot >= 0.0 && threshold == PotOdds(pot, toCall) * (1.0 - alpha * 0.3)
    ensures PostflopDecision(equity, alpha, pot, toCall, draw) ==
      if equity > threshold then Only(Call) else Only(Fold)
  {
  }

  /** The discounted pot odds lie between 70% and 100% of the pot odds. */
  lemma ThresholdOrder(equity: real, p: real, alpha: real, threshold: real)
    requires 0.0 <= alpha <= 1.0 && p >= 0.0 && threshold == p * (1.0 - alpha * 0.3)
    ensures equity > p ==> equity > threshold
    ensures equity <= 0.7 * p ==> equity <= threshold
  {
    var m := 1.0 - alpha * 0.3;
    assert threshold == p * m;
    MulMonotone(p, m, 1.0);
    assert p * m <= p * 1.0 == p;
    MulMonotone(p, 0.7, m);
    assert 0.7 * p == p * 0.7 <= p * m;
  }

  /** `_postflop_strategy` as written: the weighted sum stands in for the
      mean strength of the range. */
  function PostflopAsWritten(w: Dict<string, real>, baseEquity: real, alpha: real, pot: real,
                             toCall: real, draw: real): (d: Distribution)
    requires IsRange(w) && (toCall > 0.0 ==> pot + toCall != 0.0)
    ensures IsDistribution(d)
  {
    PostflopDecision(DiscountedEquity(baseEquity, OppStrengthSum(w)), alpha, pot, toCall, draw)
  }

  /** Over a range whose weights sum to 1, as every range `update` leaves
      behind does, the sum is the mean and the code as written decides as
      the corrected code does. */
  lemma AsWrittenAgreesOnUnitTotal(w: Dict<string, real>, baseEquity: real, alpha: real, pot: real,
                                   toCall: real, draw: real)
    requires IsRange(w) && |w| > 0 && Total(w) == 1.0 && (toCall > 0.0 ==> pot + toCall != 0.0)
    ensures PostflopAsWritten(w, baseEquity, alpha, pot, toCall, draw) ==
            PostflopStrategy(w, baseEquity, alpha, pot, toCall, draw)
  {
    assert OppStrengthMean(w) == OppStrengthSum(w) / 1.0;
  }

  /** `_postflop_strategy` with the mean strength of the range. */
  function PostflopStrategy(w: Dict<string, real>, baseEquity: real, alpha: real, pot: real,
                            toCall: real, draw: real): (d: Distribution)
    requires IsRange(w) && |w| > 0 && (toCall > 0.0 ==> pot + toCall != 0.0)
    ensures IsDistribution(d)
  {
    PostflopDecision(DiscountedEquity(baseEquity, OppStrengthMean(w)), alpha, pot, toCall, draw)
  }

  /** Whatever the range, equity above one and a half times the pot odds
      calls a bet. */
  lemma AheadCalls(w: Dict<string, real>, baseEquity: real, alpha: real, pot: real,
                   toCall: real, draw: real)
    requires IsRange(w) && |w| > 0 && toCall > 0.0 && pot >= 0.0 && 0.0 <= alpha <= 1.0
    requires 0.0 <= baseEquity <= 1.0 && 2.0 * baseEquity > 3.0 * PotOdds(pot, toCall)
    ensures PostflopStrategy(w, baseEquity, alpha, pot, toCall, draw) == Only(Call)
  {
    EquityAtLeast(baseEquity, OppStrengthMean(w));
    DefenceBounds(DiscountedEquity(baseEquity, OppStrengthMean(w)), alpha, pot, toCall, draw);
  }

  /** With a mean strength in [0, 1] at least two thirds of the equity survive. */
  lemma EquityAtLeast(base: real, m: real)
    requires 0.0 <= base <= 1.0 && 0.0 <= m <= 1.0
    ensures 3.0 * DiscountedEquity(base, m) >= 2.0 * base
  {
    RecipAntitone(m + 0.5, 1.5);
    MulMonotone(base, 2.0 / 3.0, 1.0 / (m + 0.5));
    assert Discount(base, m) >= 2.0 / 3.0 * base;
  }

  /** The starting range holds AA and KK with weight 1, so the weighted
      sum is at least 1 + 22/24. */
  lemma StartingSumLarge(w: Dict<string, real>)
    requires IsRange(w) && forall i :: 0 <= i < |w| ==> w[i].1 == 1.0
    requires HasKey(w, "AA") && HasKey(w, "KK")
    ensures OppStrengthSum(w) >= 23.0 / 12.0
  {
    var ts := StrengthTerms(w);
    var a :| 0 <= a < |w| && w[a].0 == "AA";
    var b :| 0 <= b < |w| && w[b].0 == "KK";
    PairStrengths();
    UnitTerm(w, a, 1.0);
    UnitTerm(w, b, 22.0 / 24.0);
    TermsBetween(w);
    SumBoundsTwoTerms(ts, a, b);
  }

  /** A term of weight 1 is its label's strength. */
  lemma UnitTerm(w: Dict<string, real>, i: nat, s: real)
    requires forall j :: 0 <= j < |w| ==> IsHandLabel(w[j].0)
    requires i < |w| && w[i].1 == 1.0 && KeyStrength(w[i].0) == s
    ensures StrengthTerms(w)[i] == s
  {
  }

  /** AA is the strongest label, KK two twenty-fourths below it. */
  lemma PairStrengths()
    ensures IsHandLabel("AA") && KeyStrength("AA") == 1.0
    ensures IsHandLabel("KK") && KeyStrength("KK") == 22.0 / 24.0
  {
    GtoApprox.AscIdxOf(11);
    GtoApprox.AscIdxOf(12);
  }

  lemma SmallShare(s: real)
    requires s >= 23.0 / 12.0
    ensures Discount(1.0, s) <= 12.0 / 29.0
  {
    RecipAntitone(29.0 / 12.0, s + 0.5);
  }

  /** As written, a hand sure to win (`base_equity` 1) facing a bet of 3
      into a pot of 2 folds from the starting range, whatever `alpha`. The
      mean strength instead calls. */
  lemma FoldsACertainWinner(w: Dict<string, real>, alpha: real, draw: real)
    requires IsRange(w) && forall i :: 0 <= i < |w| ==> w[i].1 == 1.0
    requires HasKey(w, "AA") && HasKey(w, "KK")
    requires 0.0 <= alpha <= 1.0
    ensures PostflopAsWritten(w, 1.0, alpha, 2.0, 3.0, draw) == Only(Fold)
    ensures PostflopStrategy(w, 1.0, alpha, 2.0, 3.0, draw) == Only(Call)
  {
    StartingSumLarge(w);
    SmallShare(OppStrengthSum(w));
    var p := PotOdds(2.0, 3.0);
    assert p == 0.6;
    DefenceBounds(DiscountedEquity(1.0, OppStrengthSum(w)), alpha, 2.0, 3.0, draw);
    AheadCalls(w, 1.0, alpha, 2.0, 3.0, draw);
  }

  // ------------------------------------------------------------------
  // Preflop
  // ------------------------------------------------------------------

  /** `open_threshold`: from 0.2 without entropy down to 0.05 at full entropy. */
  function OpenThreshold(entropy: real): (t: real)
    ensures 0.0 <= entropy <= 1.0 ==> 0.05 <= t <= 0.2
  {
    0.2 - entropy * 0.15
  }

  /** The two branches of `_preflop_strategy`. */
  function PreflopDecision(strength: real, threshold: real, pot: real, toCall: real): (d: Distribution)
    requires toCall != 0.0 ==> pot + toCall != 0.0
    ensures IsDistribution(d)
    ensures toCall == 0.0 ==> (d == Only(Raise) <==> strength > threshold)
    ensures toCall == 0.0 ==> d == Only(Raise) || d == Only(Fold)
    ensures toCall != 0.0 ==> (HasKey(d, Fold) <==> strength <= 0.8 && strength <= toCall / (pot + toCall))
  {
    if toCall == 0.0 then
      if strength > threshold then Only(Raise) else Only(Fold)
    else
      var potOdds := toCall / (pot + toCall);
      if strength > 0.8 then Mix(Raise, 0.4, Call, 0.6)
      else if strength > potOdds then Only(Call)
      else Only(Fold)
  }

  /** A stronger hand folds no more often; more entropy opens more hands. */
  lemma PreflopMonotone(s1: real, s2: real, t1: real, t2: real, pot: real, toCall: real)
    requires s1 <= s2 && t2 <= t1 && (toCall != 0.0 ==> pot + toCall != 0.0)
    ensures HasKey(PreflopDecision(s2, t2, pot, toCall), Fold) ==> HasKey(PreflopDecision(s1, t1, pot, toCall), Fold)
  {
    var d1, d2 := PreflopDecision(s1, t1, pot, toCall), PreflopDecision(s2, t2, pot, toCall);
    if toCall == 0.0 && HasKey(d2, Fold) {
      assert d2 != Only(Raise);
      assert s1 <= t1;
      assert d1 == Only(Fold);
    }
  }

  /** `_preflop_strategy`; the burn state is used only through the
      opening threshold and the result is returned without
      `apply_burn_state`. */
  function PreflopStrategy(hole: seq<string>, pot: real, toCall: real, burn: BurnState): (r: Result<Distribution, LabelError>)
    requires toCall != 0.0 ==> pot + toCall != 0.0
    ensures r.Ok? <==> GtoApprox.PreflopCards(hole).Ok?
    ensures r.Ok? ==> IsDistribution(r.value)
    ensures r.Err? ==> r == Err(GtoApprox.PreflopCards(hole).error)
  {
    match GtoApprox.PreflopCards(hole)
    case Err(e) => Err(e)
    case Ok((r1, r2, suited)) => Ok(PreflopDecision(GtoApprox.HandStrength(r1, r2, suited), OpenThreshold(burn.actionEntropy), pot, toCall))
  }

  // ------------------------------------------------------------------
  // The hand label of the strategy class
  // ------------------------------------------------------------------

  /** `RobustMashupNoBinaryStrategy._get_hand_label`: unlike `CardUtils`
      it appends "s" whenever the suits agree, a pair included. */
  function MashupLabel(hole: seq<string>): (r: Result<string, LabelError>)
    ensures r.Ok? <==> |hole| >= 2 && |hole[0]| >= 2 && |hole[1]| >= 2 && IsRank(hole[0][0]) && IsRank(hole[1][0])
  {
    if |hole| < 1 || |hole[0]| < 1 then Err(IndexError)
    else match GtoApprox.AscIdx(hole[0][0])
      case None => Err(ValueError)
      case Some(a) =>
        if |hole| < 2 || |hole[1]| < 1 then Err(IndexError)
        else match GtoApprox.AscIdx(hole[1][0])
          case None => Err(ValueError)
          case Some(b) =>
            var (hi, lo) := if a < b then (b, a) else (a, b);
            var ranks := [GtoApprox.AscChar(hi), GtoApprox.AscChar(lo)];
            if |hole[0]| < 2 || |hole[1]| < 2 then Err(IndexError)
            else if hole[0][1] == hole[1][1] then Ok(ranks + "s")
            else if hi != lo then Ok(ranks + "o")
            else Ok(ranks)
  }

  /** For two different cards it is the label `CardUtils` gives. */
  lemma MashupLabelAgrees(hole: seq<string>)
    requires MashupLabel(hole).Ok? && hole[0][..2] != hole[1][..2]
    ensures MashupLabel(hole) == GetHandLabel(hole)
  {
    var r1, s1, r2, s2 := hole[0][0], hole[0][1], hole[1][0], hole[1][1];
    assert hole[0][..2] == [r1, s1] && hole[1][..2] == [r2, s2];
    var a, b := GtoApprox.AscIdx(r1).value, GtoApprox.AscIdx(r2).value;
    var g := GetHandLabel(hole).value;
    if a == b {
      assert r1 == r2 && s1 != s2;
      assert g == [r1, r2];
    } else if a < b {
      assert [GtoApprox.AscChar(b), GtoApprox.AscChar(a)] + "s" == [r2, r1, 's'];
      assert [GtoApprox.AscChar(b), GtoApprox.AscChar(a)] + "o" == [r2, r1, 'o'];
      assert g == [r2, r1, if s1 == s2 then 's' else 'o'];
    } else {
      assert [GtoApprox.AscChar(a), GtoApprox.AscChar(b)] + "s" == [r1, r2, 's'];
      assert [GtoApprox.AscChar(a), GtoApprox.AscChar(b)] + "o" == [r1, r2, 'o'];
      assert g == [r1, r2, if s1 == s2 then 's' else 'o'];
    }
  }

  /** Two cards of the same rank and suit get a three-letter label that is
      no key of the range. */
  lemma SuitedPairNotInRange(hole: seq<string>)
    requires MashupLabel(hole).Ok? && hole[0][..2] == hole[1][..2]
    ensures |MashupLabel(hole).value| == 3 && !IsHandLabel(MashupLabel(hole).value)
  {
    assert hole[0][0] == hole[0][..2][0] == hole[1][0];
    assert hole[0][1] == hole[0][..2][1] == hole[1][1];
  }

  // ------------------------------------------------------------------
  // The strategy
  // ------------------------------------------------------------------

  /** `RobustMashupNoBinaryStrategy` with its opponent model. */
  class NoBinaryStrategy {
    const oppModel: EMRangeModel

    predicate Valid()
      reads this, oppModel
    {
      oppModel.Valid()
    }

    constructor()
      ensures Valid() && fresh(oppModel)
      ensures forall l :: IsHandLabel(l) ==> HasKey(oppModel.weights, l)
      ensures forall i :: 0 <= i < |oppModel.weights| ==> oppModel.weights[i].1 == 1.0
    {
      oppModel := new EMRangeModel();
    }

    /** `get_action`. `lastOppAction` is `getattr(feats, 'last_opp_action',
        None)`; `exp` is `math.exp`; `baseEquity` is the equity the
        calculator returns, `alpha` the sigmoid of step 2 and `draw` the
        random number. */
    method GetAction(info: InfoSet, feats: StateFeatures, burn: BurnState, lastOppAction: Option<string>,
                     exp: real -> real, baseEquity: real, alpha: real, draw: real)
      returns (r: Result<Distribution, LabelError>)
      requires Valid() && forall x :: exp(x) > 0.0
      requires feats.toCall != 0.0 ==> feats.potSize + feats.toCall != 0.0
      modifies oppModel
      ensures Valid()
      ensures lastOppAction.Some? && lastOppAction.value != "" ==>
        oppModel.weights == Rescale(Reweighted(old(oppModel.weights), lastOppAction.value, exp))
      ensures lastOppAction.None? || lastOppAction.value == "" ==> oppModel.weights == old(oppModel.weights)
      ensures feats.street == "preflop" ==> r == PreflopStrategy(info.holeCards, feats.potSize, feats.toCall, burn)
      ensures feats.street != "preflop" ==>
        r == Ok(PostflopStrategy(oppModel.weights, baseEquity, alpha, feats.potSize, feats.toCall, draw))
      ensures feats.street != "preflop" && lastOppAction.Some? && lastOppAction.value != "" ==>
        r == Ok(PostflopAsWritten(oppModel.weights, baseEquity, alpha, feats.potSize, feats.toCall, draw))
    {
      if lastOppAction.Some? && lastOppAction.value != "" {
        oppModel.Update(lastOppAction.value, exp);
        UpdateKeepsRange(old(oppModel.weights), lastOppAction.value, exp);
        AsWrittenAgreesOnUnitTotal(oppModel.weights, baseEquity, alpha, feats.potSize, feats.toCall, draw);
      }
      if feats.street == "preflop" {
        r := PreflopStrategy(info.holeCards, feats.potSize, feats.toCall, burn);
      } else {
        r := Ok(PostflopStrategy(oppModel.weights, baseEquity, alpha, feats.potSize, feats.toCall, draw));
      }
    }
  }
}
