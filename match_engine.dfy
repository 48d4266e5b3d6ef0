/** The heads-up match engine of src/match_engine.py.

    Chips are integers counted in quarter big blinds: the default game
    (small blind 0.5, big blind 1.0, stack 200.0) is 2 / 4 / 800 units.  In
    these units every amount the engine ever forms is even, so the tied pot
    splits exactly.

    The strategies, the sampling draws and the shuffle are parameters:
    - a `Policy` maps (player index, info set, state features) to a
      distribution: a fixed function, so a strategy that draws random
      numbers of its own is not captured;
    - `draw(k)` is the value the engine's own k-th `random.random()` of a
      hand returns; the strategies draw from the same stream in between,
      which only shows in what these values are;
    - `Rng.shuffle(seed)` is the index permutation that `random.shuffle`
      applies to a 52-element list right after `random.seed(seed)`.  The
      result depends only on the seed, not on the list's contents. */
module MatchEngine {
  import opened Wrappers
  import opened Cards
  import opened Evaluator
  import opened StrategyBase
  import opened Metrics

  // =====================================================================
  // Configuration and units

  /** `GameConfig`, in quarter big blinds. */
  datatype GameConfig = GameConfig(smallBlind: int, bigBlind: int, startingStack: int)

  /** The default `GameConfig()`: 0.5 / 1.0 / 200.0. */
  const DefaultConfig: GameConfig := GameConfig(2, 4, 800)

  /** Units per big blind. */
  const UnitsPerBlind: int := 4

  /** `if state.pot > 400`: the safeguard that ends a betting round. */
  const PotCap: int := 1600

  /** The 200.0 that `run_match` subtracts from the final stack. */
  const ProfitBaseline: int := 800

  predicate Even(x: int) { x % 2 == 0 }

  /** Blinds that are whole half-blinds, sb <= bb <= starting stack. */
  predicate ValidConfig(cfg: GameConfig) {
    0 <= cfg.smallBlind <= cfg.bigBlind <= cfg.startingStack
    && Even(cfg.smallBlind) && Even(cfg.bigBlind) && Even(cfg.startingStack)
  }

  function Chips(units: int): real { units as real / UnitsPerBlind as real }

  // =====================================================================
  // The table state as a value

  /** The nine fields of `FastState`. */
  datatype Table = Table(stacks: seq<int>, pot: int, street: int, board: seq<Card>,
                         holeCards: seq<seq<Card>>, activePlayer: int, bets: seq<int>,
                         folded: bool, handComplete: bool)

  /** Two seats, and the active player is one of them. */
  predicate Seated(t: Table) {
    |t.stacks| == 2 && |t.bets| == 2 && |t.holeCards| == 2 && 0 <= t.activePlayer <= 1
  }

  /** `to_call = state.bets[opp_idx] - state.bets[p_idx]` */
  function ToCall(t: Table): int
    requires Seated(t)
  {
    t.bets[1 - t.activePlayer] - t.bets[t.activePlayer]
  }

  /** Amounts that make sense: no negative stack or bet, and the bets of
      this street are in the pot. */
  predicate Chipped(t: Table) {
    Seated(t) && t.stacks[0] >= 0 && t.stacks[1] >= 0 && t.bets[0] >= 0 && t.bets[1] >= 0
    && t.bets[0] + t.bets[1] <= t.pot
  }

  /** A state in which the active player may act: the hand is running and
      nobody faces a negative bet. */
  predicate Live(t: Table) {
    Chipped(t) && !t.handComplete && !t.folded && ToCall(t) >= 0
  }

  /** Every amount is a whole number of half blinds. */
  predicate EvenAmounts(t: Table)
    requires Seated(t)
  {
    Even(t.stacks[0]) && Even(t.stacks[1]) && Even(t.bets[0]) && Even(t.bets[1]) && Even(t.pot)
  }

  /** Chip accounting for a game whose players started with `stack` each:
      while the hand runs, stacks plus pot is the chips of both players;
      once it is complete the pot has been paid out (and is not zeroed). */
  predicate Solvent(t: Table, stack: int) {
    Chipped(t)
    && (if t.handComplete then t.stacks[0] + t.stacks[1] == 2 * stack
        else EvenAmounts(t) && t.stacks[0] + t.stacks[1] + t.pot == 2 * stack)
  }

  /** `FastState.reset`: the button posts the small blind and acts first;
      the hole cards are left as they were. */
  function ResetTable(t: Table, sb: int, bb: int, btn: int, stack: int): (r: Table)
    ensures r.holeCards == t.holeCards
  {
    var p0 := if btn == 0 then sb else bb;
    var p1 := if btn == 0 then bb else sb;
    t.(stacks := [stack - p0, stack - p1], pot := sb + bb, street := 0, board := [],
       bets := [p0, p1], activePlayer := if btn == 0 then 0 else 1,
       folded := false, handComplete := false)
  }

  /** The state `reset` leaves, as the design describes it. */
  lemma ResetFacts(t: Table, cfg: GameConfig, btn: int)
    requires ValidConfig(cfg) && |t.holeCards| == 2
    ensures var r := ResetTable(t, cfg.smallBlind, cfg.bigBlind, btn, cfg.startingStack);
      Seated(r) && Live(r) && Solvent(r, cfg.startingStack)
      && r.stacks[0] + r.bets[0] == cfg.startingStack && r.stacks[1] + r.bets[1] == cfg.startingStack
      && r.pot == cfg.smallBlind + cfg.bigBlind
      && r.bets[r.activePlayer] == cfg.smallBlind && r.bets[1 - r.activePlayer] == cfg.bigBlind
      && r.activePlayer == (if btn == 0 then 0 else 1)
      && r.street == 0 && r.board == [] && !r.folded && !r.handComplete
  {
  }

  // =====================================================================
  // One action

  /** Puts `amount` of the active player's stack into the bet and the pot. */
  function Commit(t: Table, amount: int): Table
    requires Seated(t)
  {
    var p := t.activePlayer;
    t.(bets := t.bets[p := t.bets[p] + amount], stacks := t.stacks[p := t.stacks[p] - amount],
       pot := t.pot + amount)
  }

  /** Hands `excess` of the opponent's bet back, out of the pot. */
  function Refund(t: Table, excess: int): Table
    requires Seated(t)
  {
    var o := 1 - t.activePlayer;
    t.(bets := t.bets[o := t.bets[o] - excess], stacks := t.stacks[o := t.stacks[o] + excess],
       pot := t.pot - excess)
  }

  /** The amount a raise commits: `to_call + pot`, capped at the stack. */
  function RaiseAmount(t: Table): int
    requires Seated(t)
  {
    var p := t.activePlayer;
    if ToCall(t) + t.pot > t.stacks[p] then t.stacks[p] else ToCall(t) + t.pot
  }

  /** The "Execute" block of `_run_street`, before the turn passes. */
  function Act(t: Table, a: Action): Table
    requires Seated(t)
  {
    var p := t.activePlayer;
    var o := 1 - p;
    var toCall := ToCall(t);
    match a
    case Fold =>
      t.(folded := true, handComplete := true, stacks := t.stacks[o := t.stacks[o] + t.pot])
    case Call =>
      if toCall == 0 then t
      else if toCall > t.stacks[p] then Commit(Refund(t, toCall - t.stacks[p]), t.stacks[p])
      else Commit(t, toCall)
    case Raise =>
      var amount := RaiseAmount(t);
      if amount <= toCall then Commit(Refund(t, toCall - amount), amount)
      else Commit(t, amount)
  }

  /** A fold, even a free one, ends the hand and gives the opponent the
      whole pot; the pot itself keeps its value. */
  lemma FoldPaysPot(t: Table)
    requires Live(t)
    ensures var r := Act(t, Fold); var o := 1 - t.activePlayer;
      r.folded && r.handComplete && r.stacks[o] == t.stacks[o] + t.pot
      && r.stacks[t.activePlayer] == t.stacks[t.activePlayer] && r.pot == t.pot && r.bets == t.bets
  {
  }

  /** A call of more than the stack commits the stack, refunds the excess
      of the opponent's bet from the pot, and leaves the bets equal with the
      caller all in. */
  lemma AllInCallRefunds(t: Table)
    requires Live(t) && ToCall(t) > t.stacks[t.activePlayer]
    ensures var r := Act(t, Call); var p := t.activePlayer; var o := 1 - p;
      var excess := ToCall(t) - t.stacks[p];
      r.bets[0] == r.bets[1] && r.stacks[p] == 0
      && r.bets[o] == t.bets[o] - excess && r.stacks[o] == t.stacks[o] + excess
      && r.pot == t.pot - excess + t.stacks[p]
  {
  }

  /** A raise that does not exceed `to_call` is exactly the partial call;
      any other raise leaves the raiser's bet strictly above the opponent's. */
  lemma RaiseRule(t: Table)
    requires Live(t)
    ensures var p := t.activePlayer; var amount := RaiseAmount(t);
      amount == (if ToCall(t) + t.pot <= t.stacks[p] then ToCall(t) + t.pot else t.stacks[p])
      && (amount <= ToCall(t) ==> Act(t, Raise) == Act(t, Call))
      && (amount > ToCall(t) ==> Act(t, Raise) == Commit(t, amount)
                                 && Act(t, Raise).bets[p] > Act(t, Raise).bets[1 - p])
  {
  }

  lemma CommitFacts(t: Table, amount: int)
    requires Seated(t)
    ensures var r := Commit(t, amount); var p := t.activePlayer;
      Seated(r) && r.activePlayer == p
      && r.bets[p] == t.bets[p] + amount && r.bets[1 - p] == t.bets[1 - p]
      && r.stacks[p] == t.stacks[p] - amount && r.stacks[1 - p] == t.stacks[1 - p]
      && r.pot == t.pot + amount
      && r.street == t.street && r.board == t.board && r.holeCards == t.holeCards
      && r.folded == t.folded && r.handComplete == t.handComplete
  {
  }

  lemma RefundFacts(t: Table, excess: int)
    requires Seated(t)
    ensures var r := Refund(t, excess); var o := 1 - t.activePlayer;
      Seated(r) && r.activePlayer == t.activePlayer
      && r.bets[o] == t.bets[o] - excess && r.bets[1 - o] == t.bets[1 - o]
      && r.stacks[o] == t.stacks[o] + excess && r.stacks[1 - o] == t.stacks[1 - o]
      && r.pot == t.pot - excess
      && r.street == t.street && r.board == t.board && r.holeCards == t.holeCards
      && r.folded == t.folded && r.handComplete == t.handComplete
  {
  }

  /** A partial call: the excess goes back to the opponent, then `amount`
      goes in, and the bets are equal. */
  lemma PartialCallFacts(t: Table, amount: int)
    requires Live(t) && 0 <= amount <= t.stacks[t.activePlayer] && amount <= ToCall(t)
    ensures var r := Commit(Refund(t, ToCall(t) - amount), amount);
      Chipped(r) && r.bets[0] == r.bets[1] && !r.handComplete && !r.folded
      && r.activePlayer == t.activePlayer && r.street == t.street && r.board == t.board
      && r.holeCards == t.holeCards
      && r.stacks[0] + r.stacks[1] + r.pot == t.stacks[0] + t.stacks[1] + t.pot
  {
    RefundFacts(t, ToCall(t) - amount);
    CommitFacts(Refund(t, ToCall(t) - amount), amount);
  }

  /** A full call or a raise of `amount` out of the stack. */
  lemma FullCommitFacts(t: Table, amount: int)
    requires Live(t) && ToCall(t) <= amount <= t.stacks[t.activePlayer]
    ensures var r := Commit(t, amount); var p := t.activePlayer;
      Chipped(r) && !r.handComplete && !r.folded
      && r.activePlayer == p && r.street == t.street && r.board == t.board
      && r.holeCards == t.holeCards
      && r.bets[p] - r.bets[1 - p] == amount - ToCall(t)
      && r.stacks[0] + r.stacks[1] == t.stacks[0] + t.stacks[1] - amount
      && r.stacks[0] + r.stacks[1] + r.pot == t.stacks[0] + t.stacks[1] + t.pot
  {
    CommitFacts(t, amount);
  }

  /** The shape of the table `r` after action `a` at table `t`: only a fold
      ends the hand, and apart from a raise, every action leaves the bets
      equal; a raise that does not leaves the raiser ahead and takes chips
      out of the stacks. */
  predicate Shaped(t: Table, a: Action, r: Table)
    requires Seated(t)
  {
    var p := t.activePlayer;
    Chipped(r) && r.activePlayer == p && r.street == t.street && r.board == t.board
    && r.holeCards == t.holeCards
    && (r.handComplete <==> a == Fold) && (r.folded <==> a == Fold)
    && (a != Fold ==>
          (r.bets[0] == r.bets[1]
           || (a == Raise && r.bets[p] > r.bets[1 - p]
               && r.stacks[0] + r.stacks[1] < t.stacks[0] + t.stacks[1])))
  }

  lemma {:induction false} ActShape(t: Table, a: Action)
    requires Live(t)
    ensures Shaped(t, a, Act(t, a))
  {
    match a
    case Fold =>
    case Call => CallShape(t);
    case Raise => RaiseShape(t);
  }

  lemma CallShape(t: Table)
    requires Live(t)
    ensures Shaped(t, Call, Act(t, Call))
  {
    var p := t.activePlayer;
    var toCall := ToCall(t);
    if toCall == 0 {
    } else if toCall > t.stacks[p] {
      PartialCallFacts(t, t.stacks[p]);
    } else {
      FullCommitFacts(t, toCall);
    }
  }

  lemma RaiseShape(t: Table)
    requires Live(t)
    ensures Shaped(t, Raise, Act(t, Raise))
  {
    var amount := RaiseAmount(t);
    if amount <= ToCall(t) {
      PartialCallFacts(t, amount);
    } else {
      FullCommitFacts(t, amount);
    }
  }

  lemma EvenSum(a: int, b: int)
    requires Even(a) && Even(b)
    ensures Even(a + b) && Even(a - b)
  {
  }

  /** Every action keeps the chip accounting. */
  lemma ActConserves(t: Table, a: Action, stack: int)
    requires Live(t) && Solvent(t, stack)
    ensures Solvent(Act(t, a), stack)
  {
    match a
    case Fold =>
    case Call => CallConserves(t, stack);
    case Raise => RaiseConserves(t, stack);
  }

  lemma CallConserves(t: Table, stack: int)
    requires Live(t) && Solvent(t, stack)
    ensures Solvent(Act(t, Call), stack)
  {
    var p := t.activePlayer;
    var toCall := ToCall(t);
    EvenSum(t.bets[1 - p], t.bets[p]);
    if toCall == 0 {
    } else if toCall > t.stacks[p] {
      PartialCallConserves(t, t.stacks[p], stack);
    } else {
      FullCommitConserves(t, toCall, stack);
    }
  }

  lemma RaiseConserves(t: Table, stack: int)
    requires Live(t) && Solvent(t, stack)
    ensures Solvent(Act(t, Raise), stack)
  {
    var amount := RaiseAmount(t);
    RaiseAmountEven(t, stack);
    if amount <= ToCall(t) {
      PartialCallConserves(t, amount, stack);
    } else {
      FullCommitConserves(t, amount, stack);
    }
  }

  /** The raise amount is a whole number of half blinds out of the stack. */
  lemma RaiseAmountEven(t: Table, stack: int)
    requires Live(t) && Solvent(t, stack)
    ensures Even(RaiseAmount(t)) && 0 <= RaiseAmount(t) <= t.stacks[t.activePlayer]
  {
    var p := t.activePlayer;
    EvenSum(t.bets[1 - p], t.bets[p]);
    EvenSum(ToCall(t), t.pot);
  }

  lemma PartialCallConserves(t: Table, amount: int, stack: int)
    requires Live(t) && Solvent(t, stack) && Even(amount)
    requires 0 <= amount <= t.stacks[t.activePlayer] && amount <= ToCall(t)
    ensures Solvent(Commit(Refund(t, ToCall(t) - amount), amount), stack)
  {
    EvenSum(t.bets[1 - t.activePlayer], t.bets[t.activePlayer]);
    EvenSum(ToCall(t), amount);
    EvenAfterPartial(t, amount);
    PartialCallFacts(t, amount);
  }

  lemma FullCommitConserves(t: Table, amount: int, stack: int)
    requires Live(t) && Solvent(t, stack) && Even(amount)
    requires ToCall(t) <= amount <= t.stacks[t.activePlayer]
    ensures Solvent(Commit(t, amount), stack)
  {
    EvenAfterCommit(t, amount);
    FullCommitFacts(t, amount);
  }

  lemma EvenAfterCommit(t: Table, amount: int)
    requires Seated(t) && EvenAmounts(t) && Even(amount)
    ensures EvenAmounts(Commit(t, amount))
  {
    var p := t.activePlayer;
    CommitFacts(t, amount);
    EvenSum(t.bets[p], amount);
    EvenSum(t.stacks[p], amount);
    EvenSum(t.pot, amount);
  }

  lemma EvenAfterPartial(t: Table, amount: int)
    requires Seated(t) && EvenAmounts(t) && Even(amount) && Even(ToCall(t) - amount)
    ensures EvenAmounts(Commit(Refund(t, ToCall(t) - amount), amount))
  {
    var o := 1 - t.activePlayer;
    var excess := ToCall(t) - amount;
    RefundFacts(t, excess);
    EvenSum(t.bets[o], excess);
    EvenSum(t.stacks[o], excess);
    EvenSum(t.pot, excess);
    EvenAfterCommit(Refund(t, excess), amount);
  }

  // =====================================================================
  // Choosing the action

  /** The first index of largest weight: Python's `max(probs, key=probs.get)`. */
  function MaxIndex(probs: Distribution): (k: nat)
    requires |probs| > 0
    ensures k < |probs|
    ensures forall i :: 0 <= i < |probs| ==> probs[i].1 <= probs[k].1
    ensures forall i :: 0 <= i < k ==> probs[i].1 < probs[k].1
  {
    if |probs| == 1 then 0
    else
      var j := MaxIndex(probs[..|probs| - 1]);
      if probs[|probs| - 1].1 > probs[j].1 then |probs| - 1 else j
  }

  /** The weights of `probs[..k]`, summed in order. */
  function PrefixSum(probs: Distribution, k: nat): real
    requires k <= |probs|
  {
    if k == 0 then 0.0 else PrefixSum(probs, k - 1) + probs[k - 1].1
  }

  /** The sampling loop from index `i` on, with `cum` the sum so far. */
  function SampleFrom(probs: Distribution, r: real, i: nat, cum: real, fallback: Action): Action
    requires i <= |probs|
    decreases |probs| - i
  {
    if i == |probs| then fallback
    else if r <= cum + probs[i].1 then probs[i].0
    else SampleFrom(probs, r, i + 1, cum + probs[i].1, fallback)
  }

  /** `{'call': 1.0}` stands in for an empty distribution. */
  function NonEmpty(probs: Distribution): (ps: Distribution)
    ensures |ps| > 0
  {
    if |probs| == 0 then [(Call, 1.0)] else probs
  }

  /** The action `_run_street` executes for distribution `probs` and draw `r`. */
  function ChooseAction(probs: Distribution, r: real): Action {
    var ps := NonEmpty(probs);
    SampleFrom(ps, r, 0, 0.0, ps[MaxIndex(ps)].0)
  }

  /** The running sum up to and including index `j` stays below `r`. */
  predicate Overshoots(ps: Distribution, r: real, j: nat)
    requires j < |ps|
  {
    r > PrefixSum(ps, j + 1)
  }

  /** The chosen action is the first one whose running sum reaches `r`;
      when no running sum does, it is the first of largest weight. */
  lemma ChooseActionSpec(probs: Distribution, r: real)
    ensures var ps := NonEmpty(probs);
      (forall k :: 0 <= k < |ps| && r <= PrefixSum(ps, k + 1)
                   && (forall j :: 0 <= j < k ==> Overshoots(ps, r, j))
                   ==> ChooseAction(probs, r) == ps[k].0)
      && ((forall j :: 0 <= j < |ps| ==> Overshoots(ps, r, j))
          ==> ChooseAction(probs, r) == ps[MaxIndex(ps)].0)
  {
    var ps := NonEmpty(probs);
    SampleFromSpec(ps, r, 0, ps[MaxIndex(ps)].0);
  }

  lemma {:induction false} SampleFromSpec(ps: Distribution, r: real, i: nat, fallback: Action)
    requires i <= |ps|
    decreases |ps| - i
    ensures forall k :: i <= k < |ps| && r <= PrefixSum(ps, k + 1)
                        && (forall j :: i <= j < k ==> Overshoots(ps, r, j))
                        ==> SampleFrom(ps, r, i, PrefixSum(ps, i), fallback) == ps[k].0
    ensures (forall j :: i <= j < |ps| ==> Overshoots(ps, r, j))
            ==> SampleFrom(ps, r, i, PrefixSum(ps, i), fallback) == fallback
  {
    if i < |ps| {
      assert PrefixSum(ps, i + 1) == PrefixSum(ps, i) + ps[i].1;
      if r > PrefixSum(ps, i + 1) {
        assert Overshoots(ps, r, i);
        SampleFromSpec(ps, r, i + 1, fallback);
      } else {
        assert !Overshoots(ps, r, i);
      }
    }
  }

  /** An empty distribution always yields a call. */
  lemma EmptyMeansCall(r: real)
    ensures ChooseAction([], r) == Call
  {
    var ps := NonEmpty([]);
    assert ps == [(Call, 1.0)];
    assert MaxIndex(ps) == 0;
    assert SampleFrom(ps, r, 1, 1.0, Call) == Call;
  }

  /** The cumulative loop of `_run_street`. */
  method SelectAction(probs: Distribution, r: real) returns (action: Action)
    requires |probs| > 0
    ensures action == ChooseAction(probs, r)
  {
    var best := 0;
    var k := 1;
    while k < |probs|
      invariant 1 <= k <= |probs| && best < k
      invariant best == MaxIndex(probs[..k])
    {
      assert probs[..k + 1][..k] == probs[..k];
      if probs[k].1 > probs[best].1 {
        best := k;
      }
      k := k + 1;
    }
    assert probs[..|probs|] == probs;
    var cum := 0.0;
    action := probs[best].0;
    var i := 0;
    while i < |probs|
      invariant 0 <= i <= |probs|
      invariant SampleFrom(probs, r, i, cum, probs[best].0) == ChooseAction(probs, r)
    {
      cum := cum + probs[i].1;
      if r <= cum {
        action := probs[i].0;
        return;
      }
      i := i + 1;
    }
  }

  // =====================================================================
  // What the strategy is shown

  /** `[int_to_card(c) for c in cs]` */
  function Tokens(cs: seq<Card>): seq<string>
  {
    if |cs| == 0 then [] else [IntToCard(cs[0])] + Tokens(cs[1..])
  }

  /** Each card is shown as its own token, in order. */
  lemma {:induction false} TokensSpell(cs: seq<Card>)
    ensures |Tokens(cs)| == |cs|
    ensures forall i :: 0 <= i < |cs| ==> Tokens(cs)[i] == IntToCard(cs[i])
  {
    if |cs| > 0 {
      TokensSpell(cs[1..]);
    }
  }

  /** `InfoSet(hole_str, board_str, [], 'BTN' if p_idx == btn_idx else 'BB')` */
  function Info(t: Table, btn: int): InfoSet
    requires Seated(t)
  {
    var p := t.activePlayer;
    InfoSet(Tokens(t.holeCards[p]), Tokens(t.board), [], if p == btn then "BTN" else "BB")
  }

  /** `StateFeatures(...)`; every street after the first is reported as 'flop'. */
  function Features(t: Table): (f: StateFeatures)
    requires Seated(t)
    ensures f.street == (if t.street == 0 then "preflop" else "flop")
    ensures f.toCall == Chips(ToCall(t)) && f.validActions == [Fold, Call, Raise]
  {
    StateFeatures(Chips(t.pot), Chips(t.stacks[t.activePlayer]),
                  if t.street == 0 then "preflop" else "flop", Chips(ToCall(t)), [Fold, Call, Raise])
  }

  type Policy = (int, InfoSet, StateFeatures) -> Distribution

  /** The action taken in state `t` on the `step`-th draw. */
  function Decide(t: Table, policy: Policy, draw: nat -> real, btn: int, step: nat): Action
    requires Seated(t)
  {
    ChooseAction(policy(t.activePlayer, Info(t, btn), Features(t)), draw(step))
  }

  // =====================================================================
  // A betting round

  /** Strictly smaller after every action the round does not stop at. */
  function RoundMeasure(t: Table, first: bool): nat
    requires Live(t)
  {
    if !first && t.bets[0] == t.bets[1] then 0
    else 1 + t.stacks[0] + t.stacks[1] + (if first then 1 else 0)
  }

  /** `_run_street` from state `t`, `first` being `first_action`; the second
      component counts the draws taken. */
  function Round(t: Table, first: bool, policy: Policy, draw: nat -> real, btn: int, step: nat)
    : (Table, nat)
    requires Live(t)
    decreases RoundMeasure(t, first), 1
  {
    if !first && t.bets[0] == t.bets[1] then (t, step)
    else Turn(t, first, policy, draw, btn, step)
  }

  /** One pass through the loop of `_run_street` that did not stop at its
      top: decide, execute, and stop at a fold or above the safeguard. */
  function Turn(t: Table, first: bool, policy: Policy, draw: nat -> real, btn: int, step: nat)
    : (Table, nat)
    requires Live(t) && (first || t.bets[0] != t.bets[1])
    decreases RoundMeasure(t, first), 0
  {
    var a := Decide(t, policy, draw, btn, step);
    if a == Fold then (Act(t, a), step + 1)
    else
      PassOn(t, first, a);
      var next := Act(t, a).(activePlayer := 1 - t.activePlayer);
      if next.pot > PotCap then (next, step + 1)
      else Round(next, false, policy, draw, btn, step + 1)
  }

  /** After a call or a raise the opponent may act, and the round has come
      closer to its end. */
  lemma PassOn(t: Table, first: bool, a: Action)
    requires Live(t) && (first || t.bets[0] != t.bets[1]) && a != Fold
    ensures var next := Act(t, a).(activePlayer := 1 - t.activePlayer);
      Live(next) && RoundMeasure(next, false) < RoundMeasure(t, first)
  {
    ActShape(t, a);
  }

  /** The round stops at a fold, at the top of the loop once the bets are
      equal after the first action, or when the pot exceeds the safeguard;
      it deals no cards. */
  lemma {:induction false} RoundShape(t: Table, first: bool, policy: Policy, draw: nat -> real,
                                      btn: int, step: nat)
    requires Live(t)
    decreases RoundMeasure(t, first)
    ensures var r := Round(t, first, policy, draw, btn, step).0;
      Chipped(r) && r.street == t.street && r.board == t.board && r.holeCards == t.holeCards
      && r.folded == r.handComplete
      && (!r.handComplete ==> r.bets[0] == r.bets[1] || r.pot > PotCap)
  {
    if !first && t.bets[0] == t.bets[1] {
    } else {
      var a := Decide(t, policy, draw, btn, step);
      ActShape(t, a);
      RoundStep(t, first, policy, draw, btn, step);
      if a != Fold {
        var next := Act(t, a).(activePlayer := 1 - t.activePlayer);
        if next.pot <= PotCap {
          RoundShape(next, false, policy, draw, btn, step + 1);
        }
      }
    }
  }

  /** What one pass decides: a fold ends the round; any other action hands
      the turn over, and the round goes on unless the pot exceeds the
      safeguard. */
  lemma TurnStep(t: Table, first: bool, policy: Policy, draw: nat -> real, btn: int, step: nat)
    requires Live(t) && (first || t.bets[0] != t.bets[1])
    ensures var a := Decide(t, policy, draw, btn, step);
      var next := Act(t, a).(activePlayer := 1 - t.activePlayer);
      (a == Fold ==> Turn(t, first, policy, draw, btn, step) == (Act(t, a), step + 1))
      && (a != Fold ==>
            Live(next) && RoundMeasure(next, false) < RoundMeasure(t, first)
            && Turn(t, first, policy, draw, btn, step)
               == if next.pot > PotCap then (next, step + 1)
                  else Round(next, false, policy, draw, btn, step + 1))
  {
    ActShape(t, Decide(t, policy, draw, btn, step));
  }

  /** One pass through the loop of `_run_street` that does not stop at its top. */
  lemma RoundStep(t: Table, first: bool, policy: Policy, draw: nat -> real, btn: int, step: nat)
    requires Live(t) && (first || t.bets[0] != t.bets[1])
    ensures var a := Decide(t, policy, draw, btn, step);
      var next := Act(t, a).(activePlayer := 1 - t.activePlayer);
      (a == Fold ==> Round(t, first, policy, draw, btn, step) == (Act(t, a), step + 1))
      && (a != Fold ==>
            Live(next) && RoundMeasure(next, false) < RoundMeasure(t, first)
            && Round(t, first, policy, draw, btn, step)
               == if next.pot > PotCap then (next, step + 1)
                  else Round(next, false, policy, draw, btn, step + 1))
  {
    TurnStep(t, first, policy, draw, btn, step);
    assert Round(t, first, policy, draw, btn, step) == Turn(t, first, policy, draw, btn, step);
  }

  /** A whole round keeps the chip accounting. */
  lemma {:induction false} RoundConserves(t: Table, first: bool, policy: Policy, draw: nat -> real,
                                          btn: int, step: nat, stack: int)
    requires Live(t) && Solvent(t, stack)
    decreases RoundMeasure(t, first)
    ensures Solvent(Round(t, first, policy, draw, btn, step).0, stack)
  {
    if !first && t.bets[0] == t.bets[1] {
    } else {
      var a := Decide(t, policy, draw, btn, step);
      ActShape(t, a);
      RoundStep(t, first, policy, draw, btn, step);
      ActConserves(t, a, stack);
      if a != Fold {
        var next := Act(t, a).(activePlayer := 1 - t.activePlayer);
        if next.pot <= PotCap {
          RoundConserves(next, false, policy, draw, btn, step + 1, stack);
        }
      }
    }
  }

  /** The round never stops before the first action, and after the first
      action it stops as soon as an action leaves the bets equal. */
  lemma RoundStopsAtEqualBets(t: Table, policy: Policy, draw: nat -> real, btn: int, step: nat)
    requires Live(t)
    ensures var a := Decide(t, policy, draw, btn, step);
      var acted := Act(t, a);
      a != Fold && acted.bets[0] == acted.bets[1] && acted.pot <= PotCap
      ==> Round(t, true, policy, draw, btn, step) == (acted.(activePlayer := 1 - t.activePlayer), step + 1)
  {
    var a := Decide(t, policy, draw, btn, step);
    ActShape(t, a);
    RoundStep(t, true, policy, draw, btn, step);
  }

  // =====================================================================
  // Dealing, streets and showdown

  /** Cards on the board after each street. */
  function BoardSize(street: int): nat {
    if street <= 0 then 0 else street + 2
  }

  /** Positions i and j of `s` hold different elements. */
  predicate Differ<T(==)>(s: seq<T>, i: int, j: int) {
    0 <= i < |s| && 0 <= j < |s| && s[i] != s[j]
  }

  /** No element of `s` occurs twice.  Stated through `Differ` so that a
      proof names the pairs it needs. */
  predicate Unique<T(==)>(s: seq<T>) {
    forall i, j :: 0 <= i < |s| && 0 <= j < |s| && i != j ==> Differ(s, i, j)
  }

  lemma UniqueIsDistinct(s: seq<Card>)
    requires Unique(s)
    ensures Distinct(s)
  {
    forall i, j | 0 <= i < j < |s| ensures s[i] != s[j] {
      assert Differ(s, i, j);
    }
  }

  /** The index permutation `random.shuffle` applies to a 52-card list. */
  predicate IsIndexPerm(perm: seq<int>) {
    |perm| == 52 && (forall i :: 0 <= i < 52 ==> 0 <= perm[i] < 52) && Unique(perm)
  }

  /** A deck in some order: 52 distinct card ids. */
  predicate IsDeck(deck: seq<Card>) {
    |deck| == 52 && Unique(deck)
  }

  /** `random.shuffle(self.deck)` in place: the new deck is the old order
      permuted, so it depends on every earlier shuffle. */
  function Shuffled(deck: seq<Card>, perm: seq<int>): (r: seq<Card>)
    requires IsDeck(deck) && IsIndexPerm(perm)
    ensures IsDeck(r)
  {
    PermutedUnique(deck, perm);
    Permuted(deck, perm, 52)
  }

  /** The first `n` cards of the permuted deck. */
  function Permuted(deck: seq<Card>, perm: seq<int>, n: nat): (r: seq<Card>)
    requires IsDeck(deck) && IsIndexPerm(perm) && n <= 52
    ensures |r| == n
  {
    if n == 0 then [] else Permuted(deck, perm, n - 1) + [deck[perm[n - 1]]]
  }

  /** Position i of the permuted deck holds the card at position perm[i]. */
  lemma {:induction false} PermutedAt(deck: seq<Card>, perm: seq<int>, n: nat, i: nat)
    requires IsDeck(deck) && IsIndexPerm(perm) && i < n <= 52
    ensures Permuted(deck, perm, n)[i] == deck[perm[i]]
  {
    if i < n - 1 {
      PermutedAt(deck, perm, n - 1, i);
    }
  }

  /** The shuffle moves the card at position perm[i] to position i. */
  lemma ShuffledAt(deck: seq<Card>, perm: seq<int>, i: nat)
    requires IsDeck(deck) && IsIndexPerm(perm) && i < 52
    ensures Shuffled(deck, perm)[i] == deck[perm[i]]
  {
    PermutedAt(deck, perm, 52, i);
  }

  lemma PermutedUnique(deck: seq<Card>, perm: seq<int>)
    requires IsDeck(deck) && IsIndexPerm(perm)
    ensures Unique(Permuted(deck, perm, 52))
  {
    var r := Permuted(deck, perm, 52);
    forall i, j | 0 <= i < |r| && 0 <= j < |r| && i != j ensures Differ(r, i, j) {
      PermutedAt(deck, perm, 52, i);
      PermutedAt(deck, perm, 52, j);
      assert Differ(perm, i, j);
      assert Differ(deck, perm[i], perm[j]);
    }
  }

  /** The deck as `__init__` builds it: ids 0..51 in order. */
  function FreshDeck(n: nat): (r: seq<Card>)
    requires n <= 52
    ensures |r| == n && forall i :: 0 <= i < n ==> r[i] == i
  {
    if n == 0 then [] else FreshDeck(n - 1) + [n - 1]
  }

  /** The fresh deck is a deck, and its ids are the identity permutation. */
  lemma FreshDeckIsDeck()
    ensures IsDeck(FreshDeck(52)) && IsIndexPerm(FreshDeck(52))
  {
    var r := FreshDeck(52);
    forall i, j | 0 <= i < |r| && 0 <= j < |r| && i != j ensures Differ(r, i, j) {
    }
  }

  /** Cards dealt so far, taken from the deck in order: hole cards from
      positions 0..3, the board from position 4 on. */
  predicate Dealt(t: Table, deck: seq<Card>, idx: nat) {
    IsDeck(deck) && |t.holeCards| == 2
    && t.holeCards == [[deck[0], deck[1]], [deck[2], deck[3]]]
    && 0 <= t.street <= 3 && idx == 4 + BoardSize(t.street) && t.board == deck[4..idx]
  }

  /** "Advance street": bets back to zero, the next cards on the board and
      the non-button to act. */
  function NextStreet(t: Table, deck: seq<Card>, idx: nat, btn: int): (r: (Table, nat))
    requires Dealt(t, deck, idx) && t.street < 3
    ensures Dealt(r.0, deck, r.1) && r.0.street == t.street + 1
    ensures Chipped(t) && !t.handComplete && !t.folded ==> Live(r.0)
  {
    var street := t.street + 1;
    var board := if street == 1 then t.board + deck[idx..idx + 3] else t.board + [deck[idx]];
    var next := if street == 1 then idx + 3 else idx + 1;
    assert board == deck[4..next];
    (t.(street := street, bets := [0, 0], board := board, activePlayer := if btn == 0 then 1 else 0),
     next)
  }

  /** The pot goes to the higher score, or half to each on a tie; the pot
      field keeps its value. */
  function Payout(t: Table, score0: int, score1: int): Table
    requires Seated(t)
  {
    var stacks :=
      if score0 > score1 then t.stacks[0 := t.stacks[0] + t.pot]
      else if score1 > score0 then t.stacks[1 := t.stacks[1] + t.pot]
      else [t.stacks[0] + t.pot / 2, t.stacks[1] + t.pot / 2];
    t.(stacks := stacks, handComplete := true)
  }

  /** Seven distinct cards for each player at the river. */
  lemma DealtHands(t: Table, deck: seq<Card>, idx: nat)
    requires Dealt(t, deck, idx) && t.street == 3
    ensures ValidHand(t.holeCards[0] + t.board) && ValidHand(t.holeCards[1] + t.board)
  {
    assert deck[0..2] == [deck[0], deck[1]] && deck[2..4] == [deck[2], deck[3]];
    UniqueIsDistinct(deck);
    DistinctParts(deck, 0, 2, 4, 9);
    DistinctParts(deck, 2, 4, 4, 9);
  }

  lemma DistinctParts(deck: seq<Card>, a: nat, b: nat, c: nat, d: nat)
    requires Distinct(deck) && a <= b <= c <= d <= |deck|
    ensures Distinct(deck[a..b] + deck[c..d])
  {
    var s := deck[a..b] + deck[c..d];
    forall i, j | 0 <= i < j < |s| ensures s[i] != s[j] {
      var x := if i < b - a then a + i else c + i - (b - a);
      var y := if j < b - a then a + j else c + j - (b - a);
      assert s[i] == deck[x] && s[j] == deck[y] && x < y;
    }
  }

  function Showdown(t: Table, deck: seq<Card>, idx: nat): Table
    requires Seated(t) && Dealt(t, deck, idx) && t.street == 3
  {
    DealtHands(t, deck, idx);
    Payout(t, Score(Evaluate(t.holeCards[0] + t.board)), Score(Evaluate(t.holeCards[1] + t.board)))
  }

  /** The street loop of `play_hand` from state `t`: a betting round, then
      what follows it. */
  function Streets(t: Table, deck: seq<Card>, idx: nat, policy: Policy, draw: nat -> real,
                   btn: int, step: nat): Table
    requires Live(t) && Dealt(t, deck, idx)
    decreases 3 - t.street, 1
  {
    RoundShape(t, true, policy, draw, btn, step);
    var (t1, s1) := Round(t, true, policy, draw, btn, step);
    AfterRound(t1, deck, idx, policy, draw, btn, s1)
  }

  /** The rest of the street loop once a betting round has ended at `t`:
      the end of the hand, the showdown after the river, or the next street. */
  function AfterRound(t: Table, deck: seq<Card>, idx: nat, policy: Policy, draw: nat -> real,
                      btn: int, step: nat): Table
    requires Chipped(t) && Dealt(t, deck, idx) && t.folded == t.handComplete
    decreases 3 - t.street, 0
  {
    if t.handComplete then t
    else if t.street == 3 then Showdown(t, deck, idx)
    else
      var (t2, idx2) := NextStreet(t, deck, idx, btn);
      Streets(t2, deck, idx2, policy, draw, btn, step)
  }

  /** The betting round `Streets` starts with is the one `_run_street` plays. */
  lemma StreetsStep(t: Table, deck: seq<Card>, idx: nat, policy: Policy, draw: nat -> real,
                    btn: int, step: nat)
    requires Live(t) && Dealt(t, deck, idx)
    ensures var (t1, s1) := Round(t, true, policy, draw, btn, step);
      Chipped(t1) && Dealt(t1, deck, idx) && t1.folded == t1.handComplete && t1.street == t.street
      && Streets(t, deck, idx, policy, draw, btn, step) == AfterRound(t1, deck, idx, policy, draw, btn, s1)
  {
    RoundShape(t, true, policy, draw, btn, step);
  }

  /** The showdown pays the pot by the two scores. */
  lemma ShowdownPays(t: Table, deck: seq<Card>, idx: nat, score0: int, score1: int)
    requires Seated(t) && Dealt(t, deck, idx) && t.street == 3
    requires ValidHand(t.holeCards[0] + t.board) && ValidHand(t.holeCards[1] + t.board)
    requires score0 == Score(Evaluate(t.holeCards[0] + t.board))
    requires score1 == Score(Evaluate(t.holeCards[1] + t.board))
    ensures Showdown(t, deck, idx) == Payout(t, score0, score1)
  {
  }

  /** A tie splits an even pot exactly; every payout keeps the accounting. */
  lemma PayoutConserves(t: Table, score0: int, score1: int, stack: int)
    requires Solvent(t, stack) && !t.handComplete
    ensures var r := Payout(t, score0, score1);
      Solvent(r, stack) && r.pot == t.pot
      && r.stacks[0] == t.stacks[0] + (if score0 > score1 then t.pot else if score0 == score1 then t.pot / 2 else 0)
      && r.stacks[1] == t.stacks[1] + (if score1 > score0 then t.pot else if score0 == score1 then t.pot / 2 else 0)
  {
  }

  /** Whichever way the hand ends, the final stacks add up to both starting
      stacks: the game is zero-sum. */
  lemma {:induction false} StreetsSettle(t: Table, deck: seq<Card>, idx: nat, policy: Policy,
                                         draw: nat -> real, btn: int, step: nat, stack: int)
    requires Live(t) && Dealt(t, deck, idx) && Solvent(t, stack)
    decreases 3 - t.street
    ensures var r := Streets(t, deck, idx, policy, draw, btn, step);
      r.handComplete && Solvent(r, stack) && r.stacks[0] + r.stacks[1] == 2 * stack
  {
    RoundShape(t, true, policy, draw, btn, step);
    var (t1, s1) := Round(t, true, policy, draw, btn, step);
    RoundConserves(t, true, policy, draw, btn, step, stack);
    assert Streets(t, deck, idx, policy, draw, btn, step) == AfterRound(t1, deck, idx, policy, draw, btn, s1);
    if t1.handComplete {
    } else if t1.street == 3 {
      DealtHands(t1, deck, idx);
      PayoutConserves(t1, Score(Evaluate(t1.holeCards[0] + t1.board)),
                      Score(Evaluate(t1.holeCards[1] + t1.board)), stack);
    } else {
      var (t2, idx2) := NextStreet(t1, deck, idx, btn);
      StreetsSettle(t2, deck, idx2, policy, draw, btn, s1, stack);
    }
  }

  /** The table after `reset` and the deal of the hole cards. */
  function StartTable(deck: seq<Card>, cfg: GameConfig, btn: int): (r: Table)
    requires ValidConfig(cfg) && IsDeck(deck)
    ensures Live(r) && Dealt(r, deck, 4) && Solvent(r, cfg.startingStack)
  {
    var p0 := if btn == 0 then cfg.smallBlind else cfg.bigBlind;
    var p1 := if btn == 0 then cfg.bigBlind else cfg.smallBlind;
    Table([cfg.startingStack - p0, cfg.startingStack - p1], cfg.smallBlind + cfg.bigBlind, 0, [],
          [[deck[0], deck[1]], [deck[2], deck[3]]], if btn == 0 then 0 else 1, [p0, p1], false, false)
  }

  /** `reset` followed by the deal of the hole cards gives the start table,
      whatever the table was before. */
  lemma StartAfterReset(t: Table, deck: seq<Card>, cfg: GameConfig, btn: int)
    requires ValidConfig(cfg) && IsDeck(deck)
    ensures ResetTable(t, cfg.smallBlind, cfg.bigBlind, btn, cfg.startingStack)
              .(holeCards := [[deck[0], deck[1]], [deck[2], deck[3]]])
            == StartTable(deck, cfg, btn)
  {
  }

  /** `play_hand` with the deck already shuffled.  Everything `reset` does
      not set is overwritten by the deal, so the earlier table plays no part. */
  function Hand(deck: seq<Card>, cfg: GameConfig, policy: Policy, draw: nat -> real, btn: int): Table
    requires ValidConfig(cfg) && IsDeck(deck)
  {
    Streets(StartTable(deck, cfg, btn), deck, 4, policy, draw, btn, 0)
  }

  /** Every hand ends complete with the chips of both players back in the
      stacks: profit0 + profit1 == 0. */
  lemma HandZeroSum(deck: seq<Card>, cfg: GameConfig, policy: Policy, draw: nat -> real, btn: int)
    requires ValidConfig(cfg) && IsDeck(deck)
    ensures var r := Hand(deck, cfg, policy, draw, btn);
      r.handComplete && Chipped(r) && r.stacks[0] >= 0 && r.stacks[1] >= 0
      && r.stacks[0] + r.stacks[1] == 2 * cfg.startingStack
      && (r.stacks[0] - cfg.startingStack) + (r.stacks[1] - cfg.startingStack) == 0
  {
    var start := StartTable(deck, cfg, btn);
    StreetsSettle(start, deck, 4, policy, draw, btn, 0, cfg.startingStack);
  }

  /** Hole cards come from deck positions 0..3 and the board grows from
      position 4 as the streets go by. */
  lemma DealPositions(t: Table, deck: seq<Card>, idx: nat)
    requires Dealt(t, deck, idx)
    ensures t.holeCards == [[deck[0], deck[1]], [deck[2], deck[3]]]
    ensures |t.board| == BoardSize(t.street)
    ensures t.street >= 1 ==> t.board[..3] == [deck[4], deck[5], deck[6]]
    ensures t.street >= 2 ==> t.board[3] == deck[7]
    ensures t.street == 3 ==> t.board[4] == deck[8]
  {
    assert deck[0..2] == [deck[0], deck[1]] && deck[2..4] == [deck[2], deck[3]];
  }

  // =====================================================================
  // The randomness the engine consumes

  /** `random.seed(s)` followed by `random.shuffle` and the engine's
      `random.random()` calls: `shuffle(s)` is the permutation the shuffle
      applies, `draws(s)(k)` the value the engine's own k-th call in that
      hand returns, whatever the strategies drew in between. */
  datatype Rng = Rng(shuffle: int -> seq<int>, draws: int -> nat -> real)

  ghost predicate ValidRng(rng: Rng) {
    forall s: int :: IsIndexPerm(rng.shuffle(s))
  }

  /** The engine's deck after `n` hands, hand i shuffling with seed base + i. */
  function DeckAt(deck0: seq<Card>, rng: Rng, base: int, n: nat): (d: seq<Card>)
    requires IsDeck(deck0) && ValidRng(rng)
    ensures IsDeck(d)
  {
    if n == 0 then deck0 else Shuffled(DeckAt(deck0, rng, base, n - 1), rng.shuffle(base + n - 1))
  }

  /** The deal is not a function of the seed alone: the same seed applied
      to the deck left by an earlier hand gives another order. */
  lemma ReshuffleDependsOnHistory()
    ensures exists deck0: seq<Card>, deck1: seq<Card>, perm: seq<int> ::
      IsDeck(deck0) && IsDeck(deck1) && IsIndexPerm(perm)
      && Shuffled(deck0, perm) != Shuffled(deck1, perm)
  {
    var ids: seq<Card> := FreshDeck(52);
    var perm: seq<int> := FreshDeck(52);
    FreshDeckIsDeck();
    var swapped: seq<int> := perm[0 := 1][1 := 0];
    forall i, j | 0 <= i < 52 && 0 <= j < 52 && i != j ensures Differ(swapped, i, j) {
    }
    assert IsIndexPerm(swapped);
    var other := Shuffled(ids, swapped);
    ShuffledAt(ids, perm, 0);
    ShuffledAt(ids, swapped, 0);
    ShuffledAt(other, perm, 0);
  }

  // =====================================================================
  // The mutable objects

  /** `FastState` */
  class FastState {
    var stacks: seq<int>
    var pot: int
    var street: int
    var board: seq<Card>
    var holeCards: seq<seq<Card>>
    var activePlayer: int
    var bets: seq<int>
    var folded: bool
    var handComplete: bool

    function View(): Table
      reads this
    {
      Table(stacks, pot, street, board, holeCards, activePlayer, bets, folded, handComplete)
    }

    constructor(startingStack: int)
      ensures View() == Table([startingStack, startingStack], 0, 0, [], [[], []], 0, [0, 0], false, false)
    {
      stacks := [startingStack, startingStack];
      pot := 0;
      street := 0;
      board := [];
      holeCards := [[], []];
      activePlayer := 0;
      bets := [0, 0];
      folded := false;
      handComplete := false;
    }

    method Reset(sb: int, bb: int, btn: int, startingStack: int)
      requires |stacks| == 2 && |bets| == 2
      modifies this
      ensures View() == ResetTable(old(View()), sb, bb, btn, startingStack)
    {
      stacks := [startingStack, startingStack];
      pot := sb + bb;
      street := 0;
      board := [];
      if btn == 0 {
        bets := [sb, bb];
        stacks := [stacks[0] - sb, stacks[1] - bb];
        activePlayer := 0;
      } else {
        bets := [bb, sb];
        stacks := [stacks[0] - bb, stacks[1] - sb];
        activePlayer := 1;
      }
      folded := false;
      handComplete := false;
    }

    /** The "Execute" block of `_run_street` for action `a`. */
    method Execute(a: Action)
      requires Seated(View())
      modifies this
      ensures View() == Act(old(View()), a)
    {
      if a == Fold {
        var opp := 1 - activePlayer;
        folded := true;
        handComplete := true;
        stacks := stacks[opp := stacks[opp] + pot];
      } else if a == Call {
        ExecuteCall();
      } else {
        ExecuteRaise();
      }
    }

    /** The call branch: an all-in call refunds what the stack cannot cover. */
    method ExecuteCall()
      requires Seated(View())
      modifies this
      ensures View() == Act(old(View()), Call)
    {
      var p := activePlayer;
      var toCall := bets[1 - p] - bets[p];
      if toCall != 0 {
        var amount := toCall;
        if amount > stacks[p] {
          var actualCall := stacks[p];
          var excess := amount - actualCall;
          PayBack(excess);
          amount := actualCall;
        }
        Put(amount);
      }
    }

    /** The raise branch: `to_call + pot` capped at the stack, played as a
        call when it does not exceed `to_call`. */
    method ExecuteRaise()
      requires Seated(View())
      modifies this
      ensures View() == Act(old(View()), Raise)
    {
      var p := activePlayer;
      var toCall := bets[1 - p] - bets[p];
      var amount := toCall + pot;
      if amount > stacks[p] {
        amount := stacks[p];
      }
      assert amount == RaiseAmount(View());
      if amount <= toCall {
        var actualCall := amount;
        var excess := toCall - actualCall;
        PayBack(excess);
        Put(actualCall);
      } else {
        Put(amount);
      }
    }

    /** `bets[p] += amount; stacks[p] -= amount; pot += amount` for the
        active player p. */
    method Put(amount: int)
      requires Seated(View())
      modifies this
      ensures View() == Commit(old(View()), amount)
    {
      var p := activePlayer;
      bets := bets[p := bets[p] + amount];
      stacks := stacks[p := stacks[p] - amount];
      pot := pot + amount;
    }

    /** `bets[opp] -= excess; stacks[opp] += excess; pot -= excess`. */
    method PayBack(excess: int)
      requires Seated(View())
      modifies this
      ensures View() == Refund(old(View()), excess)
    {
      var opp := 1 - activePlayer;
      bets := bets[opp := bets[opp] - excess];
      stacks := stacks[opp := stacks[opp] + excess];
      pot := pot - excess;
    }

    /** The deal of the hole cards in `play_hand`. */
    method DealHoleCards(deck: seq<Card>)
      requires |deck| >= 4 && |holeCards| == 2
      modifies this
      ensures View() == old(View()).(holeCards := [[deck[0], deck[1]], [deck[2], deck[3]]])
    {
      holeCards := holeCards[0 := [deck[0], deck[1]]];
      holeCards := holeCards[1 := [deck[2], deck[3]]];
    }

    /** The showdown of `play_hand`: both hands are scored, then `Settle`
        pays the pot. */
    method ShowdownHands(deck: seq<Card>, deckIdx: nat)
      requires Seated(View()) && Dealt(View(), deck, deckIdx) && street == 3
      modifies this
      ensures View() == Showdown(old(View()), deck, deckIdx)
    {
      ghost var t := View();
      DealtHands(t, deck, deckIdx);
      var score0 := EvaluateHand(holeCards[0] + board);
      var score1 := EvaluateHand(holeCards[1] + board);
      ShowdownPays(t, deck, deckIdx, score0, score1);
      Settle(score0, score1);
    }

    /** "Determine winner": the higher score takes the pot, a tie splits it. */
    method Settle(score0: int, score1: int)
      requires Seated(View())
      modifies this
      ensures View() == Payout(old(View()), score0, score1)
    {
      if score0 > score1 {
        stacks := stacks[0 := stacks[0] + pot];
      } else if score1 > score0 {
        stacks := stacks[1 := stacks[1] + pot];
      } else {
        stacks := [stacks[0] + pot / 2, stacks[1] + pot / 2];
      }
      handComplete := true;
    }

    /** "Advance street" in `play_hand`: returns the new deck index. */
    method AdvanceStreet(deck: seq<Card>, deckIdx: nat, btn: int) returns (next: nat)
      requires Dealt(View(), deck, deckIdx) && street < 3
      modifies this
      ensures (View(), next) == NextStreet(old(View()), deck, deckIdx, btn)
    {
      next := deckIdx;
      street := street + 1;
      bets := [0, 0];
      if street == 1 {
        board := board + deck[next..next + 3];
        next := next + 3;
      } else if street == 2 {
        board := board + [deck[next]];
        next := next + 1;
      } else if street == 3 {
        board := board + [deck[next]];
        next := next + 1;
      }
      activePlayer := if btn == 0 then 1 else 0;
    }
  }

  /** `FastPokerEngine` */
  class FastPokerEngine {
    var state: FastState
    var deck: seq<Card>
    var gameConfig: GameConfig
    var baseSeed: int

    predicate Valid()
      reads this, state
    {
      ValidConfig(gameConfig) && IsDeck(deck) && Seated(state.View())
    }

    constructor(config: Option<GameConfig>)
      requires ValidConfig(config.GetOr(DefaultConfig))
      ensures Valid() && fresh(state)
      ensures gameConfig == config.GetOr(DefaultConfig)
      ensures deck == FreshDeck(52)
      ensures baseSeed == 42
    {
      var cfg := config.GetOr(DefaultConfig);
      state := new FastState(cfg.startingStack);
      deck := FreshDeck(52);
      gameConfig := cfg;
      baseSeed := 42;
    }

    /** `_run_street`: returns the number of draws taken so far. */
    method RunStreet(policy: Policy, draw: nat -> real, btn: int, step0: nat) returns (step: nat)
      requires Live(state.View())
      modifies state
      ensures (state.View(), step) == Round(old(state.View()), true, policy, draw, btn, step0)
    {
      var firstAction := true;
      step := step0;
      ghost var goal := Round(state.View(), true, policy, draw, btn, step0);
      while true
        invariant Live(state.View())
        invariant Round(state.View(), firstAction, policy, draw, btn, step) == goal
        decreases RoundMeasure(state.View(), firstAction)
      {
        if !firstAction && state.bets[0] == state.bets[1] {
          return;
        }
        ghost var before := state.View();
        assert Round(before, firstAction, policy, draw, btn, step) == Turn(before, firstAction, policy, draw, btn, step);
        var stop := TakeTurn(policy, draw, btn, firstAction, step);
        step := step + 1;
        if stop {
          return;
        }
        firstAction := false;
      }
    }

    /** One pass through the loop of `_run_street` that did not stop at its
        top; `stop` is the fold or the safeguard that ends the round. */
    method TakeTurn(policy: Policy, draw: nat -> real, btn: int, first: bool, step: nat)
      returns (stop: bool)
      requires Live(state.View()) && (first || state.bets[0] != state.bets[1])
      modifies state
      ensures stop ==> (state.View(), step + 1) == Turn(old(state.View()), first, policy, draw, btn, step)
      ensures !stop ==>
        Live(state.View()) && RoundMeasure(state.View(), false) < RoundMeasure(old(state.View()), first)
        && Turn(old(state.View()), first, policy, draw, btn, step)
           == Round(state.View(), false, policy, draw, btn, step + 1)
    {
      ghost var before := state.View();
      var opp := 1 - state.activePlayer;
      var action := SelectFor(policy, draw, btn, step);
      TurnStep(before, first, policy, draw, btn, step);
      state.Execute(action);
      if action == Fold {
        return true;
      }
      state.activePlayer := opp;
      assert state.View() == Act(before, action).(activePlayer := 1 - before.activePlayer);
      stop := state.pot > PotCap;
    }

    /** What the active player is shown, and the action sampled from the
        distribution its strategy returns. */
    method SelectFor(policy: Policy, draw: nat -> real, btn: int, step: nat) returns (action: Action)
      requires Seated(state.View())
      ensures action == Decide(state.View(), policy, draw, btn, step)
    {
      var p := state.activePlayer;
      var opp := 1 - p;
      var toCall := state.bets[opp] - state.bets[p];
      var info := InfoSet(Tokens(state.holeCards[p]), Tokens(state.board), [],
                          if p == btn then "BTN" else "BB");
      var feats := StateFeatures(Chips(state.pot), Chips(state.stacks[p]),
                                 if state.street == 0 then "preflop" else "flop",
                                 Chips(toCall), [Fold, Call, Raise]);
      assert info == Info(state.View(), btn) && feats == Features(state.View());
      var probs := policy(p, info, feats);
      ghost var shown := probs;
      if |probs| == 0 {
        probs := [(Call, 1.0)];
      }
      assert NonEmpty(probs) == NonEmpty(shown);
      action := SelectAction(probs, draw(step));
    }

    /** `play_hand`: reset, shuffle with seed `base_seed + hand_id`, deal,
        then the streets and the showdown. */
    method PlayHand(policy: Policy, rng: Rng, handId: int, btn: int)
      requires Valid() && ValidRng(rng)
      modifies this, state
      ensures Valid() && state == old(state) && gameConfig == old(gameConfig) && baseSeed == old(baseSeed)
      ensures Played(old(deck), deck, old(gameConfig), policy, rng, old(baseSeed) + handId, btn, state.View())
    {
      StartHand(rng, handId, btn);
      PlayStreets(policy, deck, rng.draws(baseSeed + handId), btn, gameConfig);
    }

    /** The opening of `play_hand`: `reset`, the shuffle and the deal of
        the hole cards. */
    method StartHand(rng: Rng, handId: int, btn: int)
      requires Valid() && ValidRng(rng)
      modifies this, state
      ensures state == old(state) && gameConfig == old(gameConfig) && baseSeed == old(baseSeed)
      ensures deck == Shuffled(old(deck), rng.shuffle(baseSeed + handId))
      ensures state.View() == StartTable(deck, gameConfig, btn)
    {
      var cfg := gameConfig;
      var d := Shuffled(deck, rng.shuffle(baseSeed + handId));
      ghost var before := state.View();
      deck := d;
      state.Reset(cfg.smallBlind, cfg.bigBlind, btn, cfg.startingStack);
      state.DealHoleCards(d);
      StartAfterReset(before, d, cfg, btn);
      assert deck == d && gameConfig == cfg && state.View() == StartTable(d, cfg, btn);
    }

    /** The street loop of `play_hand`, from the deal of the hole cards on. */
    method PlayStreets(policy: Policy, d: seq<Card>, draw: nat -> real, btn: int, ghost cfg: GameConfig)
      requires ValidConfig(cfg) && IsDeck(d) && state.View() == StartTable(d, cfg, btn)
      modifies state
      ensures Seated(state.View())
      ensures state.View() == Hand(d, cfg, policy, draw, btn)
    {
      var deckIdx := 4;
      var step := 0;
      ghost var goal := Streets(state.View(), d, 4, policy, draw, btn, 0);
      while !state.handComplete
        invariant Seated(state.View()) && 0 <= state.street <= 3
        invariant state.handComplete ==> state.View() == goal
        invariant !state.handComplete ==>
          Live(state.View()) && Dealt(state.View(), d, deckIdx)
          && Streets(state.View(), d, deckIdx, policy, draw, btn, step) == goal
        decreases 4 - state.street - (if state.handComplete then 1 else 0)
      {
        deckIdx, step := StreetPass(policy, d, draw, btn, deckIdx, step);
      }
    }

    /** One pass of the street loop: the betting round, then the end of the
        hand, the showdown, or the next street. */
    method StreetPass(policy: Policy, d: seq<Card>, draw: nat -> real, btn: int, deckIdx: nat,
                      step0: nat) returns (nextIdx: nat, step: nat)
      requires Live(state.View()) && Dealt(state.View(), d, deckIdx)
      modifies state
      ensures Seated(state.View()) && old(state.street) <= state.street <= 3
      ensures state.handComplete ==>
        state.View() == Streets(old(state.View()), d, deckIdx, policy, draw, btn, step0)
      ensures !state.handComplete ==>
        Live(state.View()) && Dealt(state.View(), d, nextIdx) && state.street > old(state.street)
        && Streets(state.View(), d, nextIdx, policy, draw, btn, step)
           == Streets(old(state.View()), d, deckIdx, policy, draw, btn, step0)
    {
      ghost var before := state.View();
      step := RunStreet(policy, draw, btn, step0);
      StreetsStep(before, d, deckIdx, policy, draw, btn, step0);
      nextIdx := FinishStreet(policy, d, draw, btn, deckIdx, step);
    }

    /** After the betting round: stop if the hand is over, hold the showdown
        after the river, or advance to the next street. */
    method FinishStreet(policy: Policy, d: seq<Card>, draw: nat -> real, btn: int, deckIdx: nat,
                        step: nat) returns (nextIdx: nat)
      requires Chipped(state.View()) && Dealt(state.View(), d, deckIdx)
      requires state.folded == state.handComplete
      modifies state
      ensures Seated(state.View()) && old(state.street) <= state.street <= 3
      ensures state.handComplete ==>
        state.View() == AfterRound(old(state.View()), d, deckIdx, policy, draw, btn, step)
      ensures !state.handComplete ==>
        Live(state.View()) && Dealt(state.View(), d, nextIdx) && state.street == old(state.street) + 1
        && Streets(state.View(), d, nextIdx, policy, draw, btn, step)
           == AfterRound(old(state.View()), d, deckIdx, policy, draw, btn, step)
    {
      nextIdx := deckIdx;
      if state.handComplete {
        return;
      }
      if state.street == 3 {
        state.ShowdownHands(d, deckIdx);
        return;
      }
      nextIdx := state.AdvanceStreet(d, deckIdx, btn);
    }
  }

  /** `stacks[0] - 200.0`: the baseline does not follow the configured stack. */
  function Profit(stack0: int): real {
    Chips(stack0 - ProfitBaseline)
  }

  /** The button of hand `i`. */
  function Button(i: int, switch: bool): int {
    if !switch then 0 else if i % 2 == 0 then 0 else 1
  }

  /** Hand i of a match played by an engine whose deck started as `deck0`. */
  function MatchHand(deck0: seq<Card>, cfg: GameConfig, policy: Policy, rng: Rng, base: int,
                     i: nat, switch: bool): (r: Table)
    requires IsDeck(deck0) && ValidRng(rng) && ValidConfig(cfg)
    ensures r.handComplete && Chipped(r)
  {
    var deck := DeckAt(deck0, rng, base, i + 1);
    HandZeroSum(deck, cfg, policy, rng.draws(base + i), Button(i, switch));
    Hand(deck, cfg, policy, rng.draws(base + i), Button(i, switch))
  }

  /** The first player's reported profit in hand i of a match. */
  function HandProfit(deck0: seq<Card>, cfg: GameConfig, policy: Policy, rng: Rng, base: int,
                      i: nat, switch: bool): real
    requires IsDeck(deck0) && ValidRng(rng) && ValidConfig(cfg)
  {
    Profit(MatchHand(deck0, cfg, policy, rng, base, i, switch).stacks[0])
  }

  /** Every hand's profit in a match played by an engine whose deck started as `deck0`. */
  function MatchProfits(deck0: seq<Card>, cfg: GameConfig, policy: Policy, rng: Rng, base: int,
                        switch: bool): nat -> real
    requires IsDeck(deck0) && ValidRng(rng) && ValidConfig(cfg)
  {
    (i: nat) => HandProfit(deck0, cfg, policy, rng, base, i, switch)
  }

  /** The reports of the first n hands, hand i reporting `profit(i)`. */
  function Reports(profit: nat -> real, n: nat): (r: seq<HandResult>)
    ensures |r| == n
  {
    if n == 0 then [] else Reports(profit, n - 1) + [HandResult(n - 1, profit(n - 1), [])]
  }

  /** Report i is hand i's id and profit. */
  lemma {:induction false} ReportsAt(profit: nat -> real, n: nat, r: seq<HandResult>)
    requires r == Reports(profit, n)
    ensures forall i :: 0 <= i < n ==> r[i] == HandResult(i, profit(i), [])
  {
    if n > 0 {
      ReportsAt(profit, n - 1, r[..n - 1]);
    }
  }

  /** Hand `seed` was played: the deck `before` was reshuffled with the
      seed's permutation into `after`, and the hand played out on it ended
      in `t`. */
  ghost predicate Played(before: seq<Card>, after: seq<Card>, cfg: GameConfig, policy: Policy, rng: Rng,
                         seed: int, btn: int, t: Table)
  {
    IsDeck(before) && ValidRng(rng) && ValidConfig(cfg) && after == Shuffled(before, rng.shuffle(seed))
    && t == Hand(after, cfg, policy, rng.draws(seed), btn)
  }

  /** Hand i of a match: the deck it is played on is the shuffle of the deck
      before it, its profit is hand i's profit, and its report extends the
      reports of the hands before it. */
  lemma NextHand(deck0: seq<Card>, cfg: GameConfig, policy: Policy, rng: Rng, base: int, i: nat,
                 switch: bool, before: seq<Card>, after: seq<Card>, btn: int, t: Table,
                 profit: real)
    requires Played(before, after, cfg, policy, rng, base + i, btn, t) && btn == Button(i, switch)
    requires Seated(t) && profit == Profit(t.stacks[0])
    requires IsDeck(deck0) && before == DeckAt(deck0, rng, base, i)
    ensures after == DeckAt(deck0, rng, base, i + 1)
    ensures profit == HandProfit(deck0, cfg, policy, rng, base, i, switch)
  {
  }

  /** The report of hand i extends the reports of the hands before it. */
  lemma NextReport(deck0: seq<Card>, cfg: GameConfig, policy: Policy, rng: Rng, base: int, i: nat,
                   switch: bool, done: seq<HandResult>, profit: real)
    requires IsDeck(deck0) && ValidRng(rng) && ValidConfig(cfg)
    requires done == Reports(MatchProfits(deck0, cfg, policy, rng, base, switch), i)
    requires profit == HandProfit(deck0, cfg, policy, rng, base, i, switch)
    ensures done + [HandResult(i, profit, [])] == Reports(MatchProfits(deck0, cfg, policy, rng, base, switch), i + 1)
  {
  }

  /** `MatchEngine` */
  class Match {
    var engine: FastPokerEngine

    predicate Valid()
      reads this, engine, engine.state
    {
      engine.Valid()
    }

    /** `if seed:` ignores both a missing seed and seed 0. */
    constructor(config: Option<GameConfig>, seed: Option<int>)
      requires ValidConfig(config.GetOr(DefaultConfig))
      ensures Valid() && fresh(engine) && fresh(engine.state)
      ensures engine.baseSeed == (if seed.Some? && seed.value != 0 then seed.value else 42)
      ensures engine.gameConfig == config.GetOr(DefaultConfig)
      ensures engine.deck == FreshDeck(52)
    {
      engine := new FastPokerEngine(config);
      new;
      if seed.Some? && seed.value != 0 {
        engine.baseSeed := seed.value;
      }
    }

    /** One iteration of `run_match`'s loop: hand i, its button and its profit. */
    method PlayNext(policy: Policy, rng: Rng, i: nat, switch: bool, ghost deck0: seq<Card>)
      returns (profit: real)
      requires Valid() && ValidRng(rng) && IsDeck(deck0)
      requires engine.deck == DeckAt(deck0, rng, engine.baseSeed, i)
      modifies engine, engine.state
      ensures Valid() && engine == old(engine) && engine.state == old(engine.state)
      ensures engine.gameConfig == old(engine.gameConfig) && engine.baseSeed == old(engine.baseSeed)
      ensures engine.deck == DeckAt(deck0, rng, engine.baseSeed, i + 1)
      ensures profit == HandProfit(deck0, engine.gameConfig, policy, rng, engine.baseSeed, i, switch)
    {
      var btn := if i % 2 == 0 then 0 else 1;
      if !switch {
        btn := 0;
      }
      assert btn == Button(i, switch);
      var e := engine;
      ghost var before, cfg, base := e.deck, e.gameConfig, e.baseSeed;
      e.PlayHand(policy, rng, i, btn);
      ghost var t := e.state.View();
      profit := Profit(e.state.stacks[0]);
      assert profit == Profit(t.stacks[0]);
      NextHand(deck0, cfg, policy, rng, base, i, switch, before, e.deck, btn, t, profit);
    }

    /** `run_match`: hand i is played with button `Button(i, switch)` and
        reported with the first player's profit against 200.0. */
    method RunMatch(policy: Policy, rng: Rng, numHands: nat, switch: bool)
      returns (results: seq<HandResult>)
      requires Valid() && ValidRng(rng)
      modifies engine, engine.state
      ensures Valid() && engine.gameConfig == old(engine.gameConfig) && engine.baseSeed == old(engine.baseSeed)
      ensures engine.deck == DeckAt(old(engine.deck), rng, engine.baseSeed, numHands)
      ensures |results| == numHands
      ensures forall i :: 0 <= i < numHands ==>
        results[i] == HandResult(i, HandProfit(old(engine.deck), engine.gameConfig, policy, rng,
                                               engine.baseSeed, i, switch), [])
    {
      ghost var deck0 := engine.deck;
      results := [];
      var i := 0;
      while i < numHands
        invariant 0 <= i <= numHands && |results| == i
        invariant Valid() && engine == old(engine) && engine.state == old(engine.state)
        invariant engine.gameConfig == old(engine.gameConfig) && engine.baseSeed == old(engine.baseSeed)
        invariant engine.deck == DeckAt(deck0, rng, engine.baseSeed, i)
        invariant results == Reports(MatchProfits(deck0, engine.gameConfig, policy, rng, engine.baseSeed, switch), i)
      {
        var profit := PlayNext(policy, rng, i, switch, deck0);
        NextReport(deck0, engine.gameConfig, policy, rng, engine.baseSeed, i, switch, results, profit);
        results := results + [HandResult(i, profit, [])];
        i := i + 1;
      }
      ReportsAt(MatchProfits(deck0, engine.gameConfig, policy, rng, engine.baseSeed, switch), numHands, results);
    }
  }
}
