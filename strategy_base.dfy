/** The strategy interface of src/strategies/base.py: what a strategy is
    shown (`InfoSet`, `StateFeatures`), what it returns, an action
    distribution `{action: probability}` kept in the dictionary's
    iteration order, and the burn-knob post-processing every strategy
    applies to that distribution. */
module StrategyBase {
  import opened Wrappers
  import opened Dicts
  import opened BurnKnobs

  /** The three action keys a strategy may use: 'fold', 'call', 'raise'. */
  datatype Action = Fold | Call | Raise

  /** A `Dict[str, float]` of action weights, in insertion order. */
  type Distribution = Dict<Action, real>

  /** `InfoSet`: card tokens, the (unused) action history and the position name. */
  datatype InfoSet = InfoSet(holeCards: seq<string>, communityCards: seq<string>,
                             actionHistory: seq<string>, position: string)

  /** `StateFeatures`, amounts in big blinds. */
  datatype StateFeatures = StateFeatures(potSize: real, stackSize: real, street: string,
                                         toCall: real, validActions: seq<Action>)

  /** `get_name`: `STRATEGY_NAME or cls.__name__`, so an empty name also
      falls back to the class name. */
  function GetName(strategyName: Option<string>, className: string): (name: string)
    ensures strategyName.Some? && strategyName.value != "" ==> name == strategyName.value
    ensures strategyName.None? || strategyName.value == "" ==> name == className
    ensures name != "" <==> (strategyName.Some? && strategyName.value != "") || className != ""
  {
    match strategyName
    case Some(n) => if n != "" then n else className
    case None => className
  }

  /** What a strategy's result is meant to be: each action once, no
      negative weight, the weights summing to 1. */
  predicate IsDistribution(d: Distribution) {
    UniqueKeys(d) && (forall i :: 0 <= i < |d| ==> d[i].1 >= 0.0) && Total(d) == 1.0
  }

  /** `{a: 1.0}` */
  function Only(a: Action): (d: Distribution)
    ensures IsDistribution(d) && Lookup(d, a) == Some(1.0)
    ensures forall b :: b != a ==> !HasKey(d, b)
  {
    var d := [(a, 1.0)];
    assert d[..0] == [];
    assert Values(d) == [1.0] && [1.0][..0] == [];
    assert Lookup(d, a) == Some(1.0);
    d
  }

  /** Single-action distributions differ exactly when their actions do. */
  lemma OnlyInjective(a: Action, b: Action)
    ensures Only(a) == Only(b) <==> a == b
  {
    if a != b {
      assert HasKey(Only(a), a);
    }
  }

  /** `{a: p, b: q}` for two different actions */
  function Mix(a: Action, p: real, b: Action, q: real): (d: Distribution)
    requires a != b && p >= 0.0 && q >= 0.0 && p + q == 1.0
    ensures IsDistribution(d) && Lookup(d, a) == Some(p) && Lookup(d, b) == Some(q)
    ensures forall c :: c != a && c != b ==> !HasKey(d, c)
  {
    var d := [(a, p), (b, q)];
    assert d[..1] == [(a, p)] && d[..1][..0] == [];
    assert Values(d) == [p, q] && [p, q][..1] == [p] && [p][..0] == [];
    assert Sum([p, q]) == Sum([p]) + q == p + q;
    assert Lookup(d[..1], a) == Some(p);
    assert Lookup(d, a) == Some(p) && Lookup(d, b) == Some(q);
    d
  }

  /** The key of each one-action distribution. */
  lemma OnlyKeys()
    ensures forall a, b :: HasKey(Only(a), b) <==> a == b
  {
    forall a, b ensures HasKey(Only(a), b) <==> a == b {
      assert Only(a)[0].0 == a;
    }
  }

  /** The keys of a two-action distribution. */
  lemma MixKeys(a: Action, p: real, b: Action, q: real)
    requires a != b && p >= 0.0 && q >= 0.0 && p + q == 1.0
    ensures HasKey(Mix(a, p, b, q), a) && HasKey(Mix(a, p, b, q), b)
    ensures forall c :: HasKey(Mix(a, p, b, q), c) <==> c == a || c == b
  {
  }

  /** `can_check = 'call' in valid and feats.to_call == 0` */
  predicate CanCheck(validActions: seq<Action>, toCall: real) {
    Call in validActions && toCall == 0.0
  }

  /** The pot odds of the strategies: `to_call / (pot_size + to_call)`
      when facing a bet, 0 otherwise. */
  function PotOdds(pot: real, toCall: real): (p: real)
    requires toCall > 0.0 ==> pot + toCall != 0.0
    ensures toCall > 0.0 && pot >= 0.0 ==> 0.0 < p <= 1.0
    ensures toCall <= 0.0 ==> p == 0.0
  {
    if toCall > 0.0 then
      OddsInUnit(pot, toCall);
      toCall / (pot + toCall)
    else 0.0
  }

  lemma OddsInUnit(pot: real, toCall: real)
    requires toCall > 0.0 && pot + toCall != 0.0
    ensures pot >= 0.0 ==> 0.0 < toCall / (pot + toCall) <= 1.0
  {
    if pot >= 0.0 {
      var q := toCall / (pot + toCall);
      assert q * (pot + toCall) == toCall;
    }
  }

  /** The renormalisation of `apply_burn_state` (and of any weight table):
      divide by the total when it is positive. */
  function Rescale<K>(d: Dict<K, real>): Dict<K, real> {
    var total := Total(d);
    if total > 0.0 then Divide(d, total) else d
  }

  /** Rescaling keeps the actions, and a positive total becomes 1. */
  lemma RescaleFacts<K>(d: Dict<K, real>)
    requires UniqueKeys(d)
    ensures UniqueKeys(Rescale(d)) && Keys(Rescale(d)) == Keys(d)
    ensures Total(d) > 0.0 ==> Total(Rescale(d)) == 1.0
    ensures Total(d) <= 0.0 ==> Rescale(d) == d
  {
    var total := Total(d);
    if total > 0.0 {
      var r := Divide(d, total);
      SameKeys(d, r);
      SumScaled(Values(d), Values(r), total);
      assert Total(r) == total / total == 1.0;
    }
  }

  /** The EV-floor step of `apply_burn_state`: keep the actions that
      survive `apply_ev_floor`, then rescale. */
  function FilterByEv(probs: Distribution, burn: BurnState, evs: Dict<Action, real>): Distribution {
    Rescale(Restrict(probs, KeySet(ApplyEvFloor(evs, EvFloorBb(burn)))))
  }

  /** `Strategy.apply_burn_state`; the softmax for an intermediate
      temperature is a parameter. */
  function ApplyBurnState(probs: Distribution, burn: BurnState, evs: Option<Dict<Action, real>>,
                          softmax: Softmax<Action>): (r: Distribution)
    ensures !(evs.Some? && burn.evFloor > 0.0) && burn.actionEntropy <= 0.0 ==> r == probs
    ensures burn.actionEntropy > 0.0 && |probs| == 0 && evs.None? ==> r == []
  {
    var filtered := if evs.Some? && burn.evFloor > 0.0 then FilterByEv(probs, burn, evs.value) else probs;
    if burn.actionEntropy > 0.0 then ApplyTemperature(filtered, burn.actionEntropy, softmax)
    else filtered
  }

  /** With EVs and a positive floor (and no temperature), exactly the
      actions of `probs` that survive the floor remain, with their weights
      rescaled so that they sum to 1 when their total is positive. */
  lemma EvFilterKeeps(probs: Distribution, burn: BurnState, evs: Dict<Action, real>,
                      softmax: Softmax<Action>, k: Action)
    requires UniqueKeys(probs) && burn.evFloor > 0.0 && burn.actionEntropy <= 0.0
    ensures UniqueKeys(ApplyBurnState(probs, burn, Some(evs), softmax))
    ensures HasKey(ApplyBurnState(probs, burn, Some(evs), softmax), k) <==>
      HasKey(probs, k) && HasKey(ApplyEvFloor(evs, EvFloorBb(burn)), k)
    ensures Total(Restrict(probs, KeySet(ApplyEvFloor(evs, EvFloorBb(burn))))) > 0.0 ==>
      Total(ApplyBurnState(probs, burn, Some(evs), softmax)) == 1.0
  {
    var survivors := KeySet(ApplyEvFloor(evs, EvFloorBb(burn)));
    var kept := Restrict(probs, survivors);
    var r := Rescale(kept);
    assert ApplyBurnState(probs, burn, Some(evs), softmax) == r;
    RestrictUnique(probs, survivors);
    RestrictKeys(probs, survivors, k);
    RescaleFacts(kept);
    SameKeysHasKey(r, kept, k);
  }

  /** With full entropy the result is uniform over the remaining actions. */
  lemma FullEntropyUniform(probs: Distribution, burn: BurnState, softmax: Softmax<Action>)
    requires UniqueKeys(probs) && |probs| > 0 && burn.actionEntropy == 1.0
    ensures var r := ApplyBurnState(probs, burn, None, softmax);
      Keys(r) == Keys(probs) && Total(r) == 1.0
  {
    UniformAtOne(probs, softmax);
  }
}
