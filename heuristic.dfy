/** src/strategies/heuristic.py: `HeuristicBot`, which compares its
    equity with the pot odds. The Monte Carlo equity and the value of
    `random.random()` used for its bluffs are parameters. */
module Heuristic {
  import opened Dicts
  import opened StrategyBase

  /** The chance of a bluff raise when checked to, and when facing a bet. */
  const CheckBluff: real := 0.15
  const BetBluff: real := 0.05

  /** `get_action`: check-to lines bet strong hands and bluff weak ones;
      facing a bet it continues exactly when the equity covers the pot odds
      and otherwise folds unless it bluffs. */
  function GetAction(equity: real, feats: StateFeatures, draw: real): (d: Distribution)
    requires feats.toCall > 0.0 ==> feats.potSize + feats.toCall != 0.0
    ensures IsDistribution(d)
    ensures HasKey(d, Fold) <==>
      !CanCheck(feats.validActions, feats.toCall) && equity < PotOdds(feats.potSize, feats.toCall) && draw >= BetBluff
    ensures HasKey(d, Raise) <==>
      if CanCheck(feats.validActions, feats.toCall) then equity > 0.6 || (equity <= 0.4 && draw < CheckBluff)
      else if equity >= PotOdds(feats.potSize, feats.toCall) then equity > 0.75
      else draw < BetBluff
    ensures HasKey(d, Fold) ==> d == Only(Fold)
    ensures (!CanCheck(feats.validActions, feats.toCall) && equity >= PotOdds(feats.potSize, feats.toCall) &&
             equity > 0.75) ==> d == Mix(Raise, 0.8, Call, 0.2)
    ensures (HasKey(d, Raise) && (CanCheck(feats.validActions, feats.toCall) ||
             equity < PotOdds(feats.potSize, feats.toCall))) ==> d == Only(Raise)
    ensures !HasKey(d, Raise) && !HasKey(d, Fold) ==> d == Only(Call)
  {
    MixKeys(Raise, 0.8, Call, 0.2);
    OnlyKeys();
    var potOdds := PotOdds(feats.potSize, feats.toCall);
    if CanCheck(feats.validActions, feats.toCall) then
      if equity > 0.6 then Only(Raise)
      else if equity > 0.4 then Only(Call)
      else if draw < CheckBluff then Only(Raise)
      else Only(Call)
    else if equity >= potOdds then
      if equity > 0.75 then Mix(Raise, 0.8, Call, 0.2) else Only(Call)
    else if draw < BetBluff then Only(Raise)
    else Only(Fold)
  }

  /** Expected chips won by calling, counted from the decision: the pot with
      probability `equity`, minus the call otherwise. */
  function CallEv(equity: real, pot: real, toCall: real): real {
    equity * pot - (1.0 - equity) * toCall
  }

  /** Facing a bet, the bot folds only calls that lose chips on average, and
      every call that loses chips on average is folded unless it bluffs. */
  lemma FoldsExactlyNegativeEv(equity: real, feats: StateFeatures, draw: real)
    requires feats.toCall > 0.0 && feats.potSize >= 0.0
    ensures HasKey(GetAction(equity, feats, draw), Fold) <==>
      CallEv(equity, feats.potSize, feats.toCall) < 0.0 && draw >= BetBluff
  {
    assert !CanCheck(feats.validActions, feats.toCall);
    NegativeEvBelowOdds(equity, feats.potSize, feats.toCall);
  }

  /** A call loses chips on average exactly when the equity is below the pot odds. */
  lemma NegativeEvBelowOdds(equity: real, pot: real, toCall: real)
    requires toCall > 0.0 && pot >= 0.0
    ensures CallEv(equity, pot, toCall) < 0.0 <==> equity < PotOdds(pot, toCall)
  {
    assert PotOdds(pot, toCall) == toCall / (pot + toCall);
    CallEvFactored(equity, pot, toCall);
    OddsCompare(equity, toCall, pot + toCall);
  }

  lemma CallEvFactored(equity: real, pot: real, toCall: real)
    ensures CallEv(equity, pot, toCall) == equity * (pot + toCall) - toCall
  {
  }

  /** `equity < toCall / t` exactly when `equity * t < toCall`, for `t > 0`. */
  lemma OddsCompare(equity: real, toCall: real, t: real)
    requires t > 0.0
    ensures equity < toCall / t <==> equity * t < toCall
  {
    assert (toCall / t) * t == toCall;
    if equity < toCall / t {
      assert equity * t < (toCall / t) * t;
    }
    if equity * t < toCall {
      assert equity * t < (toCall / t) * t;
    }
  }

  /** More equity never turns a continuation into a fold. */
  lemma FoldMonotone(e1: real, e2: real, feats: StateFeatures, draw: real)
    requires feats.toCall > 0.0 ==> feats.potSize + feats.toCall != 0.0
    requires e1 <= e2 && HasKey(GetAction(e2, feats, draw), Fold)
    ensures GetAction(e1, feats, draw) == Only(Fold)
  {
  }
}
