/** scripts/run_NN.py: the simulator that plays a hand from the blinds to
    the start of the turn, for collecting turn situations. The shuffled
    deck, the two strategies and the `random()` draw behind every
    `random.choices` call are parameters; the card helpers `create_deck`
    and `deal_cards` are `Cards.CreateDeck` and `Cards.DealCards`. */
module TurnSimulator {
  import opened Wrappers
  import opened Dicts
  import opened Cards
  import opened StrategyBase
  import opened Rmball

  // ------------------------------------------------------------------
  // `_sample_action`
  // ------------------------------------------------------------------

  /** `{'action': ..., 'amount': ...}` */
  datatype Sampled = Sampled(action: Action, amount: real)

  /** The weights handed to `random.choices`: divided by their total when
      that is positive, otherwise `1 / n` each. */
  function Normalise(ps: seq<real>): (ws: seq<real>)
    requires |ps| > 0
    ensures |ws| == |ps|
    ensures Sum(ps) > 0.0 ==> forall i :: 0 <= i < |ps| ==> ws[i] == ps[i] / Sum(ps)
    ensures Sum(ps) <= 0.0 ==> forall i :: 0 <= i < |ps| ==> ws[i] == Share(|ps|)
  {
    var total := Sum(ps);
    if total > 0.0 then seq(|ps|, i requires 0 <= i < |ps| => ps[i] / total)
    else seq(|ps|, i requires 0 <= i < |ps| => Share(|ps|))
  }

  /** Either way the weights sum to 1. */
  lemma NormaliseSumsToOne(ps: seq<real>)
    requires |ps| > 0
    ensures Sum(Normalise(ps)) == 1.0
  {
    var ws := Normalise(ps);
    var total := Sum(ps);
    if total > 0.0 {
      SumScaled(ps, ws, total);
      assert total / total == 1.0;
    } else {
      SumConstant(ws, Share(|ps|));
    }
  }

  /** Non-negative weights stay non-negative. */
  lemma NormaliseNonNegative(ps: seq<real>)
    requires |ps| > 0 && forall i :: 0 <= i < |ps| ==> ps[i] >= 0.0
    ensures forall i :: 0 <= i < |ps| ==> Normalise(ps)[i] >= 0.0
  {
    var total := Sum(ps);
    if total > 0.0 {
      forall i | 0 <= i < |ps| ensures ps[i] / total >= 0.0 {
        DivNonNegative(ps[i], total);
      }
    }
  }

  lemma DivNonNegative(x: real, t: real)
    requires x >= 0.0 && t > 0.0
    ensures x / t >= 0.0
  {
  }

  /** `itertools.accumulate(ws)` */
  function Cumulative(ws: seq<real>): (c: seq<real>)
    ensures |c| == |ws|
  {
    if |ws| == 0 then [] else Cumulative(ws[..|ws| - 1]) + [Sum(ws)]
  }

  /** Entry `i` of the running totals is the sum of the first `i + 1` weights. */
  lemma {:induction false} CumulativeAt(ws: seq<real>, i: nat)
    requires i < |ws|
    ensures Cumulative(ws)[i] == Sum(ws[..i + 1])
  {
    var init := ws[..|ws| - 1];
    if i < |ws| - 1 {
      CumulativeAt(init, i);
      assert init[..i + 1] == ws[..i + 1];
    } else {
      assert ws[..i + 1] == ws;
    }
  }

  /** Running totals of non-negative weights never decrease. */
  lemma {:induction false} PrefixSumsGrow(ws: seq<real>, i: nat, j: nat)
    requires forall k :: 0 <= k < |ws| ==> ws[k] >= 0.0
    requires i <= j <= |ws|
    ensures Sum(ws[..i]) <= Sum(ws[..j])
    decreases j - i
  {
    if i < j {
      PrefixSumsGrow(ws, i, j - 1);
      assert ws[..j][..j - 1] == ws[..j - 1];
    }
  }

  predicate Sorted(a: seq<real>) {
    forall i, j :: 0 <= i <= j < |a| ==> a[i] <= a[j]
  }

  /** `bisect.bisect_right(a, x, lo, hi)`, its binary search as written. */
  function BisectRight(a: seq<real>, x: real, lo: nat, hi: nat): (r: nat)
    requires lo <= hi <= |a|
    ensures lo <= r <= hi
    decreases hi - lo
  {
    if lo < hi then
      var mid := (lo + hi) / 2;
      if x < a[mid] then BisectRight(a, x, lo, mid) else BisectRight(a, x, mid + 1, hi)
    else lo
  }

  /** On a sorted list the search stops at the first entry above `x`
      (or at `hi`), having passed only entries at most `x`. */
  lemma {:induction false} BisectFindsFirstAbove(a: seq<real>, x: real, lo: nat, hi: nat)
    requires lo <= hi <= |a| && Sorted(a)
    ensures var r := BisectRight(a, x, lo, hi);
      (forall j :: lo <= j < r ==> a[j] <= x) && (r < hi ==> x < a[r])
    decreases hi - lo
  {
    if lo < hi {
      var mid := (lo + hi) / 2;
      if x < a[mid] {
        BisectFindsFirstAbove(a, x, lo, mid);
      } else {
        BisectFindsFirstAbove(a, x, mid + 1, hi);
      }
    }
  }

  /** The index `random.choices(population, weights=ws, k=1)` picks for the
      draw `r` of `random()`: `bisect(cum_weights, r * total, 0, n - 1)`. */
  function Choose(ws: seq<real>, r: real): (k: nat)
    requires |ws| > 0
    ensures k < |ws|
  {
    var cum := Cumulative(ws);
    BisectRight(cum, r * cum[|cum| - 1], 0, |cum| - 1)
  }

  /** `_sample_action` for the draw `r`: fold with amount 0 on an empty
      distribution, otherwise one of its actions with amount 0.75. */
  function SampleAction(probs: Distribution, r: real): (s: Sampled)
    ensures |probs| == 0 ==> s == Sampled(Fold, 0.0)
    ensures |probs| > 0 ==> s.amount == 0.75 && HasKey(probs, s.action)
  {
    if |probs| == 0 then Sampled(Fold, 0.0)
    else Sampled(probs[Choose(Normalise(Values(probs)), r)].0, 0.75)
  }

  /** For a draw in [0, 1) and non-negative weights, the sampled action has
      positive normalised weight: an action of weight 0 in a distribution
      with positive total is never sampled. */
  lemma SampleHasPositiveWeight(probs: Distribution, r: real)
    requires |probs| > 0 && 0.0 <= r < 1.0
    requires forall i :: 0 <= i < |probs| ==> probs[i].1 >= 0.0
    ensures var k := Choose(Normalise(Values(probs)), r);
      SampleAction(probs, r).action == probs[k].0 && Normalise(Values(probs))[k] > 0.0 &&
      (Total(probs) > 0.0 ==> probs[k].1 > 0.0)
  {
    var vs := Values(probs);
    var ws := Normalise(vs);
    NormaliseNonNegative(vs);
    NormaliseSumsToOne(vs);
    var k := ChosenWeightPositive(ws, r);
    if Total(probs) > 0.0 {
      assert ws[k] == vs[k] / Total(probs);
      QuotientPositive(vs[k], Total(probs));
    }
  }

  lemma QuotientPositive(x: real, t: real)
    requires t > 0.0 && x / t > 0.0
    ensures x > 0.0
  {
    if x <= 0.0 {
      DivNonPositive(x, t);
    }
  }

  lemma DivNonPositive(x: real, t: real)
    requires x <= 0.0 && t > 0.0
    ensures x / t <= 0.0
  {
  }

  /** The weight-level argument: with non-negative weights summing to 1,
      the running totals are sorted, the last is 1 > `r`, so the search
      stops at an index whose own weight lifts the running total above `r`. */
  lemma ChosenWeightPositive(ws: seq<real>, r: real) returns (k: nat)
    requires |ws| > 0 && 0.0 <= r < 1.0
    requires forall i :: 0 <= i < |ws| ==> ws[i] >= 0.0
    requires Sum(ws) == 1.0
    ensures k == Choose(ws, r) && ws[k] > 0.0
  {
    var n := |ws|;
    var cum := Cumulative(ws);
    forall i, j | 0 <= i <= j < n ensures cum[i] <= cum[j] {
      CumulativeAt(ws, i);
      CumulativeAt(ws, j);
      PrefixSumsGrow(ws, i + 1, j + 1);
    }
    CumulativeAt(ws, n - 1);
    assert ws[..n] == ws;
    assert cum[n - 1] == 1.0;
    k := Choose(ws, r);
    BisectFindsFirstAbove(cum, r, 0, n - 1);
    assert r < cum[k];
    CumulativeAt(ws, k);
    assert ws[..k + 1][..k] == ws[..k];
    if k > 0 {
      CumulativeAt(ws, k - 1);
      assert cum[k - 1] <= r;
    } else {
      assert ws[..0] == [];
    }
  }

  // ------------------------------------------------------------------
  // The table
  // ------------------------------------------------------------------

  datatype Player = One | Two

  function Other(p: Player): Player {
    if p == One then Two else One
  }

  /** The locals of `simulate_hand_until_turn` on one street: both stacks,
      the pot and what each player has put in on this street. */
  datatype Table = Table(stack1: real, stack2: real, pot: real, inv1: real, inv2: real)

  function StackOf(t: Table, p: Player): real {
    if p == One then t.stack1 else t.stack2
  }

  function InvOf(t: Table, p: Player): real {
    if p == One then t.inv1 else t.inv2
  }

  function Chips(t: Table): real {
    t.stack1 + t.stack2 + t.pot
  }

  /** `max(0.0, opp_inv - curr_inv)` */
  function ToCall(t: Table, p: Player): (c: real)
    ensures c >= 0.0
    ensures c == 0.0 <==> InvOf(t, Other(p)) <= InvOf(t, p)
  {
    Max(0.0, InvOf(t, Other(p)) - InvOf(t, p))
  }

  /** The actor moves `amount` from its stack into the pot and its
      investment for the street. */
  function Pay(t: Table, p: Player, amount: real): (u: Table)
    ensures Chips(u) == Chips(t)
    ensures StackOf(u, p) == StackOf(t, p) - amount && InvOf(u, p) == InvOf(t, p) + amount
    ensures u.pot == t.pot + amount
    ensures StackOf(u, Other(p)) == StackOf(t, Other(p)) && InvOf(u, Other(p)) == InvOf(t, Other(p))
  {
    if p == One then Table(t.stack1 - amount, t.stack2, t.pot + amount, t.inv1 + amount, t.inv2)
    else Table(t.stack1, t.stack2 - amount, t.pot + amount, t.inv1, t.inv2 + amount)
  }

  datatype StreetKind = Preflop | Flop

  function StreetName(k: StreetKind): string {
    if k == Preflop then "preflop" else "flop"
  }

  /** `min(to_call, curr_stack)` */
  function CallAmount(t: Table, p: Player): real {
    Min(ToCall(t, p), StackOf(t, p))
  }

  /** A raise puts in `min(to_call + (to_call + bb), curr_stack + to_call)`
      preflop, and a bet `min(to_call + max(bb, pot * 0.5), curr_stack)` on
      the flop. */
  function RaiseTotal(k: StreetKind, t: Table, p: Player, bb: real): real {
    var toCall := ToCall(t, p);
    if k == Preflop then Min(toCall + (toCall + bb), StackOf(t, p) + toCall)
    else Min(toCall + Max(bb, t.pot * 0.5), StackOf(t, p))
  }

  /** `abs(p1_inv - p2_inv) < 1e-6` */
  predicate Level(t: Table) {
    Abs(t.inv1 - t.inv2) < 0.000001
  }

  // ------------------------------------------------------------------
  // The street loops
  // ------------------------------------------------------------------

  /** What the acting strategy is shown at one iteration of a street loop. */
  datatype Decision = Decision(street: StreetKind, step: nat, player: Player, info: InfoSet,
                               feats: StateFeatures)

  /** What the hand fixes before its first decision: the hole cards, the
      button and the big blind. */
  datatype Setting = Setting(hole1: seq<string>, hole2: seq<string>, button: int, bb: real)

  /** 'BTN' for player 1 when `button_position == 0` and for player 2 when
      it is 1, 'BB' otherwise. */
  function Position(p: Player, button: int): string {
    if (p == One && button == 0) || (p == Two && button == 1) then "BTN" else "BB"
  }

  function Observe(s: Setting, k: StreetKind, i: nat, p: Player, t: Table, board: seq<string>): Decision {
    Decision(k, i, p,
             InfoSet(if p == One then s.hole1 else s.hole2, board, [], Position(p, s.button)),
             StateFeatures(t.pot, StackOf(t, p), StreetName(k), ToCall(t, p), [Fold, Call, Raise]))
  }

  /** `_sample_action(curr_strat.get_action(info, feat, burn_state))['action']`
      for the strategies of both players (told apart by `Decision.player`)
      and the `random()` draw behind each sampling. */
  function Sampler(strategy: Decision -> Distribution, draw: Decision -> real): Decision -> Action {
    d => SampleAction(strategy(d), draw(d)).action
  }

  /** A street's `for i in range(10)` loop from iteration `i`: `None` once
      somebody folds, otherwise the table it ends with. It stops when the
      investments are level after the first iteration, right after a
      levelling call, or after ten actions. */
  function Street(decide: Decision -> Action, s: Setting, k: StreetKind, board: seq<string>, t: Table,
                  p: Player, i: nat): Option<Table>
    decreases 10 - i
  {
    if i >= 10 || (i > 0 && Level(t)) then Some(t)
    else match decide(Observe(s, k, i, p, t, board))
      case Fold => None
      case Call =>
        var u := Pay(t, p, CallAmount(t, p));
        if Level(u) then Some(u) else Street(decide, s, k, board, u, Other(p), i + 1)
      case Raise => Street(decide, s, k, board, Pay(t, p, RaiseTotal(k, t, p, s.bb)), Other(p), i + 1)
  }

  /** Chips only move between the stacks and the pot, and what a player has
      put in is exactly what left its stack. */
  predicate Tracks(t: Table, u: Table) {
    Chips(u) == Chips(t) && u.inv1 + u.stack1 == t.inv1 + t.stack1 && u.inv2 + u.stack2 == t.inv2 + t.stack2
  }

  lemma PayTracks(t: Table, p: Player, amount: real)
    ensures Tracks(t, Pay(t, p, amount))
  {
  }

  /** A street keeps the chips where they were. */
  lemma {:induction false} StreetConserves(decide: Decision -> Action, s: Setting, k: StreetKind,
                                           board: seq<string>, t: Table, p: Player, i: nat)
    requires Street(decide, s, k, board, t, p, i).Some?
    ensures Tracks(t, Street(decide, s, k, board, t, p, i).value)
    decreases 10 - i
  {
    if !(i >= 10 || (i > 0 && Level(t))) {
      var a := decide(Observe(s, k, i, p, t, board));
      var amount := if a == Call then CallAmount(t, p) else RaiseTotal(k, t, p, s.bb);
      var u := Pay(t, p, amount);
      PayTracks(t, p, amount);
      if a == Raise || !Level(u) {
        assert Street(decide, s, k, board, t, p, i) == Street(decide, s, k, board, u, Other(p), i + 1);
        StreetConserves(decide, s, k, board, u, Other(p), i + 1);
      }
    }
  }

  /** One street loop, with the locals it updates; `decide` gives the
      sampled action of the strategy to act. */
  method PlayStreet(decide: Decision -> Action, s: Setting, k: StreetKind, board: seq<string>,
                    t0: Table, p0: Player)
    returns (r: Option<Table>)
    ensures r == Street(decide, s, k, board, t0, p0, 0)
  {
    var stack1, stack2, pot, inv1, inv2 := t0.stack1, t0.stack2, t0.pot, t0.inv1, t0.inv2;
    var acting := p0;
    var i := 0;
    while i < 10
      invariant 0 <= i <= 10
      invariant Street(decide, s, k, board, Table(stack1, stack2, pot, inv1, inv2), acting, i) ==
                Street(decide, s, k, board, t0, p0, 0)
    {
      var t := Table(stack1, stack2, pot, inv1, inv2);
      if i > 0 && Level(t) {
        StreetStops(decide, s, k, board, t, acting, i);
        return Some(t);
      }
      var action := decide(Observe(s, k, i, acting, t, board));
      if action == Fold {
        StreetFolds(decide, s, k, board, t, acting, i);
        return None;
      }
      var amount := if action == Call then CallAmount(t, acting) else RaiseTotal(k, t, acting, s.bb);
      if acting == One {
        stack1, inv1 := stack1 - amount, inv1 + amount;
      } else {
        stack2, inv2 := stack2 - amount, inv2 + amount;
      }
      pot := pot + amount;
      var u := Table(stack1, stack2, pot, inv1, inv2);
      assert u == Pay(t, acting, amount);
      StreetMoves(decide, s, k, board, t, acting, i, action, u);
      if action == Call && Level(u) {
        return Some(u);
      }
      acting := Other(acting);
      i := i + 1;
    }
    StreetStops(decide, s, k, board, Table(stack1, stack2, pot, inv1, inv2), acting, i);
    return Some(Table(stack1, stack2, pot, inv1, inv2));
  }

  /** A street loop that has run ten times, or finds the investments level
      after its first iteration, ends with the table as it is. */
  lemma StreetStops(decide: Decision -> Action, s: Setting, k: StreetKind, board: seq<string>, t: Table,
                    p: Player, i: nat)
    requires i >= 10 || (i > 0 && Level(t))
    ensures Street(decide, s, k, board, t, p, i) == Some(t)
  {
  }

  /** A fold ends the hand. */
  lemma StreetFolds(decide: Decision -> Action, s: Setting, k: StreetKind, board: seq<string>, t: Table,
                    p: Player, i: nat)
    requires i < 10 && !(i > 0 && Level(t)) && decide(Observe(s, k, i, p, t, board)) == Fold
    ensures Street(decide, s, k, board, t, p, i) == None
  {
  }

  /** A call or a raise pays its amount; a levelling call ends the street,
      anything else hands the turn over. */
  lemma StreetMoves(decide: Decision -> Action, s: Setting, k: StreetKind, board: seq<string>, t: Table,
                    p: Player, i: nat, a: Action, u: Table)
    requires i < 10 && !(i > 0 && Level(t)) && a == decide(Observe(s, k, i, p, t, board)) && a != Fold
    requires u == Pay(t, p, if a == Call then CallAmount(t, p) else RaiseTotal(k, t, p, s.bb))
    ensures Street(decide, s, k, board, t, p, i) ==
            if a == Call && Level(u) then Some(u) else Street(decide, s, k, board, u, Other(p), i + 1)
  {
  }

  // ------------------------------------------------------------------
  // The hand
  // ------------------------------------------------------------------

  /** The dict `simulate_hand_until_turn` returns. */
  datatype TurnSituation = TurnSituation(street: string, hole1: seq<string>, hole2: seq<string>,
                                         board: seq<string>, pot: real, stack1: real, stack2: real,
                                         acting: Player)

  /** The blinds: the button posts `bb / 2`, the other player `bb`. */
  function Blinds(button: int, bb: real, startingStack: real): (t: Table)
    ensures t.pot == t.inv1 + t.inv2 == bb / 2.0 + bb
    ensures button == 0 ==> t.inv1 == bb / 2.0 && t.inv2 == bb
    ensures button != 0 ==> t.inv1 == bb && t.inv2 == bb / 2.0
    ensures t.stack1 == startingStack - t.inv1 && t.stack2 == startingStack - t.inv2
  {
    var sb := bb / 2.0;
    if button == 0 then Table(startingStack - sb, startingStack - bb, sb + bb, sb, bb)
    else Table(startingStack - bb, startingStack - sb, bb + sb, bb, sb)
  }

  /** Preflop the button acts first; on the flop and the turn the other player. */
  function PreflopFirst(button: int): Player {
    if button == 0 then One else Two
  }

  function FlopFirst(button: int): Player {
    if button == 0 then Two else One
  }

  /** The flop street starts with nothing invested. */
  function NewStreet(t: Table): Table {
    Table(t.stack1, t.stack2, t.pot, 0.0, 0.0)
  }

  /** `simulate_hand_until_turn` for the shuffled deck `deck`; `None` when
      somebody folds. */
  function Hand(deck: seq<string>, button: int, bb: real, startingStack: real,
                strategy: Decision -> Distribution, draw: Decision -> real): Option<TurnSituation>
  {
    var (hole1, rest1) := DealCards(deck, 2);
    var (hole2, rest2) := DealCards(rest1, 2);
    var s := Setting(hole1, hole2, button, bb);
    var decide := Sampler(strategy, draw);
    match Street(decide, s, Preflop, [], Blinds(button, bb, startingStack), PreflopFirst(button), 0)
    case None => None
    case Some(t) => AfterPreflop(decide, s, rest2, t)
  }

  /** The rest of the hand once the preflop loop ends with table `t` and
      `rest` left in the deck: the flop, its loop and the turn card. */
  function AfterPreflop(decide: Decision -> Action, s: Setting, rest: seq<string>, t: Table): Option<TurnSituation>
  {
    var (flop, rest3) := DealCards(rest, 3);
    match Street(decide, s, Flop, flop, NewStreet(t), FlopFirst(s.button), 0)
    case None => None
    case Some(u) =>
      var (turn, _) := DealCards(rest3, 1);
      Some(TurnSituation("turn", s.hole1, s.hole2, flop + turn, u.pot, u.stack1, u.stack2, FlopFirst(s.button)))
  }

  /** The hand as the script plays it, one street loop after the other. */
  method SimulateHandUntilTurn(deck: seq<string>, button: int, bb: real, startingStack: real,
                               strategy: Decision -> Distribution, draw: Decision -> real)
    returns (r: Option<TurnSituation>)
    ensures r == Hand(deck, button, bb, startingStack, strategy, draw)
  {
    var hole1, rest := DealCards(deck, 2).0, DealCards(deck, 2).1;
    var hole2, rest' := DealCards(rest, 2).0, DealCards(rest, 2).1;
    var s := Setting(hole1, hole2, button, bb);
    var decide := Sampler(strategy, draw);
    var preflop := PlayStreet(decide, s, Preflop, [], Blinds(button, bb, startingStack), PreflopFirst(button));
    if preflop.None? {
      return None;
    }
    var flop, rest'' := DealCards(rest', 3).0, DealCards(rest', 3).1;
    var community := flop;
    var flopEnd := PlayStreet(decide, s, Flop, community, NewStreet(preflop.value), FlopFirst(button));
    if flopEnd.None? {
      return None;
    }
    var turn := DealCards(rest'', 1).0;
    community := community + turn;
    var u := flopEnd.value;
    return Some(TurnSituation("turn", hole1, hole2, community, u.pot, u.stack1, u.stack2, FlopFirst(button)));
  }

  /** A hand that reaches the turn from a full deck shows the first two
      cards to player 1, the next two to player 2 and the next four as the
      board, has the non-button player to act, and keeps every chip:
      `p1_stack + p2_stack + pot == 2 * starting_stack`. */
  lemma HandReachingTurn(deck: seq<string>, button: int, bb: real, startingStack: real,
                         strategy: Decision -> Distribution, draw: Decision -> real)
    requires |deck| == 52
    requires Hand(deck, button, bb, startingStack, strategy, draw).Some?
    ensures var h := Hand(deck, button, bb, startingStack, strategy, draw).value;
      h.hole1 == deck[..2] && h.hole2 == deck[2..4] && h.board == deck[4..8] &&
      h.acting == (if button == 0 then Two else One) && h.street == "turn" &&
      h.stack1 + h.stack2 + h.pot == 2.0 * startingStack
  {
    assert DealCards(deck, 2) == (deck[..2], deck[2..]);
    assert deck[2..][..2] == deck[2..4] && deck[2..][2..] == deck[4..];
    assert DealCards(deck[2..], 2) == (deck[2..4], deck[4..]);
    var s := Setting(deck[..2], deck[2..4], button, bb);
    var decide := Sampler(strategy, draw);
    var t0 := Blinds(button, bb, startingStack);
    var pre := Street(decide, s, Preflop, [], t0, PreflopFirst(button), 0);
    assert Hand(deck, button, bb, startingStack, strategy, draw) ==
      if pre.None? then None else AfterPreflop(decide, s, deck[4..], pre.value);
    StreetConserves(decide, s, Preflop, [], t0, PreflopFirst(button), 0);
    AfterPreflopReachesTurn(decide, s, deck[4..], pre.value);
    assert deck[4..][..4] == deck[4..8];
  }

  /** From the preflop's end, a hand reaching the turn shows the next four
      cards as the board and keeps the chips of the preflop's end. */
  lemma AfterPreflopReachesTurn(decide: Decision -> Action, s: Setting, rest: seq<string>, t: Table)
    requires |rest| >= 4 && AfterPreflop(decide, s, rest, t).Some?
    ensures var h := AfterPreflop(decide, s, rest, t).value;
      h.hole1 == s.hole1 && h.hole2 == s.hole2 && h.board == rest[..4] && h.street == "turn" &&
      h.acting == FlopFirst(s.button) && h.stack1 + h.stack2 + h.pot == Chips(t)
  {
    var flop := rest[..3];
    assert DealCards(rest, 3) == (flop, rest[3..]);
    assert DealCards(rest[3..], 1).0 == [rest[3]];
    assert flop + [rest[3]] == rest[..4];
    StreetConserves(decide, s, Flop, flop, NewStreet(t), FlopFirst(s.button), 0);
  }

  /** A fold at the first preflop decision ends the hand. */
  lemma OpeningFoldEndsHand(deck: seq<string>, button: int, bb: real, startingStack: real,
                            strategy: Decision -> Distribution, draw: Decision -> real)
    requires var s := Setting(DealCards(deck, 2).0, DealCards(DealCards(deck, 2).1, 2).0, button, bb);
      Sampler(strategy, draw)(Observe(s, Preflop, 0, PreflopFirst(button), Blinds(button, bb, startingStack), [])) == Fold
    ensures Hand(deck, button, bb, startingStack, strategy, draw).None?
  {
    var s := Setting(DealCards(deck, 2).0, DealCards(DealCards(deck, 2).1, 2).0, button, bb);
    var decide := Sampler(strategy, draw);
    assert Street(decide, s, Preflop, [], Blinds(button, bb, startingStack), PreflopFirst(button), 0).None?;
  }

  /** Calls and flop bets never take more than the stack holds, but a
      preflop raise whose full size the stack cannot cover puts in
      `curr_stack + to_call` and leaves the stack at `-to_call`. */
  lemma CallsAndBetsCovered(t: Table, p: Player, bb: real)
    requires StackOf(t, p) >= 0.0 && bb > 0.0
    ensures 0.0 <= StackOf(Pay(t, p, CallAmount(t, p)), p) <= StackOf(t, p)
    ensures 0.0 <= StackOf(Pay(t, p, RaiseTotal(Flop, t, p, bb)), p)
  {
  }

  lemma PreflopRaiseOverdraws(t: Table, p: Player, bb: real)
    requires ToCall(t, p) > 0.0 && StackOf(t, p) < ToCall(t, p) + bb
    ensures StackOf(Pay(t, p, RaiseTotal(Preflop, t, p, bb)), p) == -ToCall(t, p) < 0.0
  {
    var toCall := ToCall(t, p);
    assert RaiseTotal(Preflop, t, p, bb) == StackOf(t, p) + toCall;
  }

  /** It happens on the first action of a hand: when the starting stack is
      below two big blinds, a button raise leaves the button at `-bb / 2`
      while the hand goes on to the other player. */
  lemma OpeningRaiseOverdraws(decide: Decision -> Action, s: Setting, startingStack: real)
    requires s.button == 0 && s.bb > 0.0 && startingStack < 2.0 * s.bb
    requires decide(Observe(s, Preflop, 0, One, Blinds(0, s.bb, startingStack), [])) == Raise
    ensures var t := Blinds(0, s.bb, startingStack);
      var u := Pay(t, One, RaiseTotal(Preflop, t, One, s.bb));
      u.stack1 == -s.bb / 2.0 &&
      Street(decide, s, Preflop, [], t, One, 0) == Street(decide, s, Preflop, [], u, Two, 1)
  {
    var t := Blinds(0, s.bb, startingStack);
    assert ToCall(t, One) == s.bb / 2.0;
    PreflopRaiseOverdraws(t, One, s.bb);
    RaiseStep(decide, s, Preflop, [], t, One, 0);
  }

  /** One raise iteration of a street loop. */
  lemma RaiseStep(decide: Decision -> Action, s: Setting, k: StreetKind, board: seq<string>, t: Table,
                  p: Player, i: nat)
    requires i < 10 && !(i > 0 && Level(t)) && decide(Observe(s, k, i, p, t, board)) == Raise
    ensures Street(decide, s, k, board, t, p, i) ==
            Street(decide, s, k, board, Pay(t, p, RaiseTotal(k, t, p, s.bb)), Other(p), i + 1)
  {
  }
}
