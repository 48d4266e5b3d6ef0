/** src/strategies/random.py: `RandomBot`, the control group. Below a
    base temperature of 0.5 it plays uniformly over the valid actions,
    otherwise it normalises one `random.random()` weight per action. The
    drawn weights and the softmax of the burn state are parameters. */
module RandomBot {
  import opened Wrappers
  import opened Dicts
  import opened BurnKnobs
  import opened StrategyBase

  /** `RandomBot(base_temperature=0.8)` */
  datatype RandomBot = RandomBot(baseTemperature: real)

  function NewRandomBot(): (b: RandomBot)
    ensures b.baseTemperature == 0.8 && b.baseTemperature >= 0.5
  {
    RandomBot(0.8)
  }

  predicate Distinct<K(==)>(actions: seq<K>) {
    forall i, j :: 0 <= i < j < |actions| ==> actions[i] != actions[j]
  }

  /** `random.random()` lies in [0, 1). */
  predicate Draws(weights: seq<real>, n: nat) {
    |weights| == n && forall i :: 0 <= i < n ==> 0.0 <= weights[i] < 1.0
  }

  /** `{action: c for action in actions}` */
  function Constant<K>(actions: seq<K>, c: real): (ps: seq<(K, real)>)
    ensures |ps| == |actions| && forall i :: 0 <= i < |actions| ==> ps[i] == (actions[i], c)
  {
    seq(|actions|, i requires 0 <= i < |actions| => (actions[i], c))
  }

  /** `zip(actions, weights)` with each weight divided by `total`. */
  function Scaled<K>(actions: seq<K>, weights: seq<real>, total: real): (ps: seq<(K, real)>)
    requires |weights| == |actions| && total != 0.0
    ensures |ps| == |actions| && forall i :: 0 <= i < |actions| ==> ps[i] == (actions[i], weights[i] / total)
  {
    seq(|actions|, i requires 0 <= i < |actions| => (actions[i], weights[i] / total))
  }

  /** The distribution `get_action` builds before the burn step; `None` is
      the ZeroDivisionError of a weight total of zero. */
  function BaseProbs(bot: RandomBot, actions: seq<Action>, weights: seq<real>): (r: Option<Distribution>)
    requires |actions| > 0 && Draws(weights, |actions|)
    ensures r.None? <==> bot.baseTemperature >= 0.5 && Sum(weights) == 0.0
    ensures r.Some? ==> UniqueKeys(r.value)
  {
    if bot.baseTemperature < 0.5 then Some(FromPairs(Constant(actions, Share(|actions|))))
    else
      var total := Sum(weights);
      if total == 0.0 then None else Some(FromPairs(Scaled(actions, weights, total)))
  }

  /** `get_action`: no valid action gives `{}` without the burn step. */
  function GetAction(bot: RandomBot, feats: StateFeatures, burn: BurnState, weights: seq<real>,
                     softmax: Softmax<Action>): (r: Option<Distribution>)
    requires Draws(weights, |feats.validActions|)
    ensures |feats.validActions| == 0 ==> r == Some([])
    ensures |feats.validActions| > 0 ==>
      (r.None? <==> BaseProbs(bot, feats.validActions, weights).None?)
    ensures |feats.validActions| > 0 && r.Some? ==>
      r.value == ApplyBurnState(BaseProbs(bot, feats.validActions, weights).value, burn, None, softmax)
  {
    if |feats.validActions| == 0 then Some([])
    else match BaseProbs(bot, feats.validActions, weights)
      case None => None
      case Some(probs) => Some(ApplyBurnState(probs, burn, None, softmax))
  }

  /** Below the temperature threshold, distinct actions each get `1/n` and
      nothing else appears: a uniform distribution. */
  lemma UniformBelowHalf(bot: RandomBot, actions: seq<Action>, weights: seq<real>)
    requires |actions| > 0 && Draws(weights, |actions|) && Distinct(actions)
    requires bot.baseTemperature < 0.5
    ensures BaseProbs(bot, actions, weights).Some?
    ensures var d := BaseProbs(bot, actions, weights).value;
      IsDistribution(d) && Keys(d) == actions &&
      forall i :: 0 <= i < |d| ==> d[i].1 == Share(|actions|)
  {
    var ps := Constant(actions, Share(|actions|));
    assert BaseProbs(bot, actions, weights) == Some(FromPairs(ps));
    UniformPairs(actions);
  }

  /** Otherwise, when some weight is positive, distinct actions get their
      weights in proportion and the result sums to 1. */
  lemma WeightedAtOrAboveHalf(bot: RandomBot, actions: seq<Action>, weights: seq<real>)
    requires |actions| > 0 && Draws(weights, |actions|) && Distinct(actions)
    requires bot.baseTemperature >= 0.5 && Sum(weights) != 0.0
    ensures BaseProbs(bot, actions, weights).Some?
    ensures var d := BaseProbs(bot, actions, weights).value;
      IsDistribution(d) && Keys(d) == actions &&
      forall i :: 0 <= i < |d| ==> d[i].1 == weights[i] / Sum(weights)
  {
    WeightedPairs(actions, weights);
  }

  /** `{a: 1/n for a in actions}` over distinct keys, for any key type. */
  lemma UniformPairs<K>(actions: seq<K>)
    requires |actions| > 0 && Distinct(actions)
    ensures var ps := Constant(actions, Share(|actions|));
      FromPairs(ps) == ps && UniqueKeys(ps) && Keys(ps) == actions && Total(ps) == 1.0 &&
      forall i :: 0 <= i < |ps| ==> ps[i].1 == Share(|actions|)
  {
    var ps := Constant(actions, Share(|actions|));
    SumConstant(Values(ps), Share(|actions|));
    PairsOverActions(actions, ps);
    FromPairsDistinct(ps);
  }

  /** `{a: w / total for a, w in zip(actions, weights)}` over distinct keys. */
  lemma WeightedPairs<K>(actions: seq<K>, weights: seq<real>)
    requires Distinct(actions) && Draws(weights, |actions|) && Sum(weights) != 0.0
    ensures var ps := Scaled(actions, weights, Sum(weights));
      FromPairs(ps) == ps && UniqueKeys(ps) && Keys(ps) == actions && Total(ps) == 1.0 &&
      forall i :: 0 <= i < |ps| ==> ps[i].1 >= 0.0 && ps[i].1 == weights[i] / Sum(weights)
  {
    var total := Sum(weights);
    SumNonNegative(weights);
    var ps := Scaled(actions, weights, total);
    SumScaled(weights, Values(ps), total);
    DivSelf(total);
    forall i | 0 <= i < |ps| ensures ps[i].1 >= 0.0 {
      DivNonNegative(weights[i], total);
    }
    PairsOverActions(actions, ps);
    FromPairsDistinct(ps);
  }

  /** Pairs over distinct keys with non-negative weights summing to 1 have
      exactly those keys and total 1. */
  lemma PairsOverActions<K>(actions: seq<K>, ps: seq<(K, real)>)
    requires Distinct(actions) && |ps| == |actions|
    requires forall i :: 0 <= i < |ps| ==> ps[i].0 == actions[i] && ps[i].1 >= 0.0
    requires Sum(Values(ps)) == 1.0
    ensures UniqueKeys(ps) && (forall i :: 0 <= i < |ps| ==> ps[i].1 >= 0.0) && Total(ps) == 1.0
    ensures Keys(ps) == actions
  {
    forall i, j | 0 <= i < j < |ps| ensures ps[i].0 != ps[j].0 {
      assert ps[i].0 == actions[i] && ps[j].0 == actions[j];
    }
    var ks := Keys(ps);
    forall i | 0 <= i < |ks| ensures ks[i] == actions[i] {
      assert ks[i] == ps[i].0;
    }
    assert ks == actions;
  }

  lemma DivSelf(t: real)
    requires t != 0.0
    ensures t / t == 1.0
  {
  }

  lemma DivNonNegative(x: real, t: real)
    requires x >= 0.0 && t > 0.0
    ensures x / t >= 0.0
  {
  }

  /** The weights are zero only when every draw came out 0.0. */
  lemma ZeroTotalOnlyAllZero(weights: seq<real>)
    requires forall i :: 0 <= i < |weights| ==> 0.0 <= weights[i]
    requires Sum(weights) == 0.0
    ensures forall i :: 0 <= i < |weights| ==> weights[i] == 0.0
  {
    forall i | 0 <= i < |weights| ensures weights[i] == 0.0 {
      SumBoundsTerm(weights, i);
    }
  }

  /** Without entropy the burn step leaves the base distribution alone. */
  lemma NoEntropyKeepsBase(bot: RandomBot, feats: StateFeatures, burn: BurnState, weights: seq<real>,
                           softmax: Softmax<Action>)
    requires Draws(weights, |feats.validActions|) && |feats.validActions| > 0
    requires burn.actionEntropy <= 0.0
    ensures GetAction(bot, feats, burn, weights, softmax) == BaseProbs(bot, feats.validActions, weights)
  {
  }
}
