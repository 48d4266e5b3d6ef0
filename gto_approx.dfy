/** src/strategies/gto_approx.py: `GTOApproxBot`, its preflop ranges,
    the preflop hand score and its two decision tables. The bot returns
    its tables as they are: it never applies the burn state. The card
    parsing and the score are shared with the robust-mashup strategy,
    which copies them. */
module GtoApprox {
  import opened Wrappers
  import opened Dicts
  import opened StrategyBase
  import opened Rmball
  import opened Cards

  // ------------------------------------------------------------------
  // Ranks counted from the deuce, `ranks = '23456789TJQKA'`
  // ------------------------------------------------------------------

  /** `ranks[k]` */
  function AscChar(k: nat): char
    requires k < 13
  {
    RankChar(12 - k)
  }

  /** `ranks.index(c)`; `None` stands for its ValueError. */
  function AscIdx(c: char): (r: Option<nat>)
    ensures r.Some? <==> IsRank(c)
    ensures r.Some? ==> r.value < 13 && AscChar(r.value) == c && r.value == 12 - Idx(c)
  {
    match RankIdx(c)
    case Some(k) => Some(12 - k)
    case None => None
  }

  lemma AscIdxOf(k: nat)
    requires k < 13
    ensures AscIdx(AscChar(k)) == Some(k)
  {
    RankAtHigh(12 - k);
  }

  lemma AscCharAgrees(k: nat)
    requires k < 13
    ensures AscChar(k) == RankChars[k]
  {
  }

  /** `ranks.index` is the rank lookup of the engine's `RANK_MAP`. */
  lemma AscIdxIsRankValue(c: char)
    ensures AscIdx(c) == RankValue(c)
  {
    forall k | 0 <= k < 13 ensures AscIdx(RankChars[k]) == Some(k) {
      AscCharAgrees(k);
      AscIdxOf(k);
    }
    if IsRank(c) {
      var a := AscIdx(c).value;
      AscCharAgrees(a);
      RankAt(a);
    }
  }

  // ------------------------------------------------------------------
  // Ranges
  // ------------------------------------------------------------------

  /** The dict of `_init_preflop_ranges`: 'raise_first', 'call_vs_raise', '3bet'. */
  datatype Ranges = Ranges(raiseFirst: real, callVsRaise: real, threeBet: real)

  /** `min(1.0, x + widen)` when widening, `x` otherwise. */
  function Widen(x: real, widen: real): (r: real)
    requires 0.0 <= x <= 1.0
    ensures widen <= 0.0 ==> r == x
    ensures widen > 0.0 ==> x < r <= 1.0 || r == 1.0
    ensures widen > 0.0 && x + widen <= 1.0 ==> r == x + widen
    ensures x <= r <= 1.0
  {
    if widen > 0.0 then Min(1.0, x + widen) else x
  }

  /** `_init_preflop_ranges`: open 80%, defend 60%, 3-bet 15%, each
      widened by `range_widen` and capped at 1 when it is positive. */
  function InitPreflopRanges(rangeWiden: real): (r: Ranges)
    ensures rangeWiden <= 0.0 ==> r == Ranges(0.80, 0.60, 0.15)
    ensures 0.80 <= r.raiseFirst <= 1.0 && 0.60 <= r.callVsRaise <= 1.0 && 0.15 <= r.threeBet <= 1.0
    ensures r.threeBet <= r.callVsRaise <= r.raiseFirst
  {
    Ranges(Widen(0.80, rangeWiden), Widen(0.60, rangeWiden), Widen(0.15, rangeWiden))
  }

  /** A wider setting never narrows a range. */
  lemma RangesMonotone(w1: real, w2: real)
    requires w1 <= w2
    ensures InitPreflopRanges(w1).raiseFirst <= InitPreflopRanges(w2).raiseFirst
    ensures InitPreflopRanges(w1).callVsRaise <= InitPreflopRanges(w2).callVsRaise
    ensures InitPreflopRanges(w1).threeBet <= InitPreflopRanges(w2).threeBet
  {
  }

  /** `GTOApproxBot(equity_boost, range_widen)` */
  datatype GtoBot = GtoBot(equityBoost: real, rangeWiden: real, preflopRanges: Ranges)

  function NewGtoBot(equityBoost: real, rangeWiden: real): GtoBot {
    GtoBot(equityBoost, rangeWiden, InitPreflopRanges(rangeWiden))
  }

  // ------------------------------------------------------------------
  // Preflop
  // ------------------------------------------------------------------

  /** The two cards of `_preflop_strategy`: `r1`, `r2` valued 2 to 14 and
      `suited`, or the error the lookups raise first. */
  function PreflopCards(hole: seq<string>): (r: Result<(nat, nat, bool), LabelError>)
    ensures r.Ok? <==> |hole| >= 2 && |hole[0]| >= 2 && |hole[1]| >= 2 && IsRank(hole[0][0]) && IsRank(hole[1][0])
    ensures r.Ok? ==> 2 <= r.value.0 <= 14 && 2 <= r.value.1 <= 14
    ensures r.Ok? ==> (r.value.0 == r.value.1 <==> hole[0][0] == hole[1][0])
    ensures r.Ok? ==> (r.value.2 <==> hole[0][1] == hole[1][1])
  {
    if |hole| < 2 || |hole[0]| < 1 then Err(IndexError)
    else match AscIdx(hole[0][0])
      case None => Err(ValueError)
      case Some(a) =>
        if |hole[1]| < 1 then Err(IndexError)
        else match AscIdx(hole[1][0])
          case None => Err(ValueError)
          case Some(b) =>
            if |hole[0]| < 2 || |hole[1]| < 2 then Err(IndexError)
            else Ok((a + 2, b + 2, hole[0][1] == hole[1][1]))
  }

  /** `hand_strength = (score - 8) / (47 - 8)` for the score
      `high * 2 + low + (2 if suited) + (5 if pair)`. It lies in [0, 1]
      except for a suited pair of aces. */
  function HandStrength(r1: nat, r2: nat, suited: bool): (s: real)
    requires 2 <= r1 <= 14 && 2 <= r2 <= 14
    ensures 0.0 <= s
    ensures s <= 1.0 <==> !(r1 == 14 && r2 == 14 && suited)
  {
    var high, low := Max(r1 as real, r2 as real), Min(r1 as real, r2 as real);
    var score := high * 2.0 + low + (if suited then 2.0 else 0.0) + (if r1 == r2 then 5.0 else 0.0);
    (score - 8.0) / (47.0 - 8.0)
  }

  lemma HandStrengthSymmetric(r1: nat, r2: nat, suited: bool)
    requires 2 <= r1 <= 14 && 2 <= r2 <= 14
    ensures HandStrength(r1, r2, suited) == HandStrength(r2, r1, suited)
  {
  }

  /** Two different cards score in [0, 1], the same in either order. */
  lemma DealtStrengthInUnit(a: string, b: string)
    requires PreflopCards([a, b]).Ok? && a[..2] != b[..2]
    ensures PreflopCards([b, a]).Ok?
    ensures var (r1, r2, s) := PreflopCards([a, b]).value;
      HandStrength(r1, r2, s) <= 1.0 && PreflopCards([b, a]).value == (r2, r1, s)
  {
    assert a[..2] == [a[0], a[1]] && b[..2] == [b[0], b[1]];
  }

  /** The table of `_preflop_strategy` for a hand of the given strength. */
  function PreflopDecision(ranges: Ranges, position: string, toCall: real, strength: real): (d: Distribution)
    ensures IsDistribution(d)
    ensures position == "BTN" && toCall == 0.0 ==> d == Only(Raise) || d == Only(Fold)
    ensures position == "BTN" && toCall == 0.0 ==> (d == Only(Raise) <==> strength > 1.0 - ranges.raiseFirst)
    ensures position == "BTN" && toCall != 0.0 ==> (HasKey(d, Fold) <==> strength <= 0.4)
    ensures position != "BTN" && toCall > 0.0 ==>
      (HasKey(d, Fold) <==> strength <= 0.85 && strength <= 1.0 - ranges.callVsRaise)
    ensures position != "BTN" && toCall <= 0.0 ==> !HasKey(d, Fold)
    ensures position != "BTN" && toCall <= 0.0 ==> (d == Only(Raise) <==> strength > 0.6)
  {
    if position == "BTN" then
      if toCall == 0.0 then
        if strength > 1.0 - ranges.raiseFirst then Only(Raise) else Only(Fold)
      else if strength > 0.7 then Mix(Call, 0.5, Raise, 0.5)
      else if strength > 0.4 then Only(Call)
      else Only(Fold)
    else if toCall > 0.0 then
      if strength > 0.85 then Only(Raise)
      else if strength > 1.0 - ranges.callVsRaise then Only(Call)
      else Only(Fold)
    else if strength > 0.6 then Only(Raise)
    else Only(Call)
  }

  /** A stronger hand, or wider ranges, never fold where a weaker hand
      with narrower ranges plays. */
  lemma PreflopFoldMonotone(r1: Ranges, r2: Ranges, position: string, toCall: real, s1: real, s2: real)
    requires s1 <= s2 && r1.raiseFirst <= r2.raiseFirst && r1.callVsRaise <= r2.callVsRaise
    ensures HasKey(PreflopDecision(r2, position, toCall, s2), Fold) ==>
      HasKey(PreflopDecision(r1, position, toCall, s1), Fold)
  {
    var d1, d2 := PreflopDecision(r1, position, toCall, s1), PreflopDecision(r2, position, toCall, s2);
    if position == "BTN" && toCall == 0.0 && HasKey(d2, Fold) {
      assert d2 != Only(Raise);
      assert d1 == Only(Fold);
    }
  }

  /** `_preflop_strategy` */
  function PreflopStrategy(bot: GtoBot, info: InfoSet, toCall: real): (r: Result<Distribution, LabelError>)
    ensures r.Ok? <==> PreflopCards(info.holeCards).Ok?
    ensures r.Ok? ==> IsDistribution(r.value)
    ensures r.Err? ==> r == Err(PreflopCards(info.holeCards).error)
  {
    match PreflopCards(info.holeCards)
    case Err(e) => Err(e)
    case Ok((r1, r2, suited)) =>
      Ok(PreflopDecision(bot.preflopRanges, info.position, toCall, HandStrength(r1, r2, suited)))
  }

  // ------------------------------------------------------------------
  // Postflop
  // ------------------------------------------------------------------

  /** `min(1.0, equity + self.equity_boost)` */
  function BoostedEquity(equity: real, boost: real): (e: real)
    ensures e <= 1.0 && e <= equity + boost
    ensures e == 1.0 || e == equity + boost
  {
    Min(1.0, equity + boost)
  }

  /** The table of `_postflop_strategy` for the boosted equity; `draw`
      is the `random.random()` of the bluffing branches. */
  function PostflopDecision(equity: real, pot: real, toCall: real, validActions: seq<Action>, draw: real): (d: Distribution)
    requires toCall > 0.0 ==> pot + toCall != 0.0
    ensures IsDistribution(d)
    ensures CanCheck(validActions, toCall) ==> !HasKey(d, Fold)
    ensures CanCheck(validActions, toCall) ==>
      (d == Only(Raise) <==> equity > 0.7 || (equity < 0.2 && draw < 0.2))
    ensures !CanCheck(validActions, toCall) && equity >= PotOdds(pot, toCall) ==> !HasKey(d, Fold)
    ensures !CanCheck(validActions, toCall) && equity >= PotOdds(pot, toCall) && equity > 0.7 ==>
      d == Mix(Raise, 0.3, Call, 0.7)
    ensures !CanCheck(validActions, toCall) && equity < PotOdds(pot, toCall) ==>
      (d == Only(Fold) <==> draw >= 0.05) && (d == Only(Fold) || d == Only(Raise))
  {
    var potOdds := PotOdds(pot, toCall);
    if CanCheck(validActions, toCall) then
      if equity > 0.7 then Only(Raise)
      else if equity > 0.5 then Only(Call)
      else if equity < 0.2 then
        if draw < 0.2 then Only(Raise) else Only(Call)
      else Only(Call)
    else if equity >= potOdds then
      if equity > 0.7 then Mix(Raise, 0.3, Call, 0.7) else Only(Call)
    else if draw < 0.05 then Only(Raise)
    else Only(Fold)
  }

  /** More equity never folds where less equity plays. */
  lemma PostflopFoldMonotone(e1: real, e2: real, pot: real, toCall: real, validActions: seq<Action>, draw: real)
    requires e1 <= e2 && (toCall > 0.0 ==> pot + toCall != 0.0)
    ensures HasKey(PostflopDecision(e2, pot, toCall, validActions, draw), Fold) ==>
      HasKey(PostflopDecision(e1, pot, toCall, validActions, draw), Fold)
  {
    var d1, d2 := PostflopDecision(e1, pot, toCall, validActions, draw), PostflopDecision(e2, pot, toCall, validActions, draw);
    if HasKey(d2, Fold) {
      assert d2 == Only(Fold);
      assert d1 == Only(Fold);
    }
  }

  /** `_postflop_strategy`; `equity` is what the calculator returns. */
  function PostflopStrategy(bot: GtoBot, equity: real, feats: StateFeatures, draw: real): (d: Distribution)
    requires feats.toCall > 0.0 ==> feats.potSize + feats.toCall != 0.0
    ensures IsDistribution(d)
  {
    PostflopDecision(BoostedEquity(equity, bot.equityBoost), feats.potSize, feats.toCall, feats.validActions, draw)
  }

  /** `get_action`: the burn state is not consulted. */
  function GetAction(bot: GtoBot, info: InfoSet, feats: StateFeatures, equity: real, draw: real): (r: Result<Distribution, LabelError>)
    requires feats.street != "preflop" && feats.toCall > 0.0 ==> feats.potSize + feats.toCall != 0.0
    ensures r.Ok? ==> IsDistribution(r.value)
    ensures r.Err? <==> feats.street == "preflop" && PreflopCards(info.holeCards).Err?
  {
    if feats.street == "preflop" then PreflopStrategy(bot, info, feats.toCall)
    else Ok(PostflopStrategy(bot, equity, feats, draw))
  }
}
