/** The Monte Carlo equity tally of src/strategies/equity_calculator.py.
    `random.sample` is replaced by the sequence of samples it would have
    drawn, one per iteration; everything else is deterministic. */
module Equity {
  import opened Wrappers
  import opened Cards
  import opened Evaluator

  /** A card argument: a list of ids, or a list of tokens such as "As".
      Only the first element's type is examined by the source; a list is
      modelled as homogeneous. */
  datatype CardList = Ids(ids: seq<Card>) | Tokens(tokens: seq<string>)

  datatype EquityError =
    | BadCard(e: CardError)   // `card_str_to_int` raised
    | NoIterations            // `/ iterations` with iterations == 0

  /** `[card_str_to_int(c) for c in tokens]`: the first failure propagates. */
  function DecodeTokens(ts: seq<string>): (r: Result<seq<Card>, CardError>)
    ensures r.Ok? <==> forall i :: 0 <= i < |ts| ==> CardStrToInt(ts[i]).Ok?
    ensures r.Ok? ==> |r.value| == |ts| && forall i :: 0 <= i < |ts| ==> r.value[i] == CardStrToInt(ts[i]).value
  {
    if |ts| == 0 then Ok([])
    else match CardStrToInt(ts[0])
      case Err(e) => Err(e)
      case Ok(c) =>
        match DecodeTokens(ts[1..])
        case Err(e) => Err(e)
        case Ok(rest) => Ok([c] + rest)
  }

  /** Lines 55-58: strings are converted to ids, ids are used unchanged. */
  function ToIds(cs: CardList): Result<seq<Card>, CardError> {
    match cs
    case Ids(ids) => Ok(ids)
    case Tokens(ts) => DecodeTokens(ts)
  }

  lemma IdsUnchanged(ids: seq<Card>)
    ensures ToIds(Ids(ids)) == Ok(ids)
  {
  }

  /** A token list converts to the ids `card_str_to_int` gives, or fails on
      the first string that does not start with a rank and a suit. */
  lemma TokensConverted(ts: seq<string>)
    ensures ToIds(Tokens(ts)).Ok? <==> forall i :: 0 <= i < |ts| ==> Spelled(ts[i])
    ensures ToIds(Tokens(ts)).Ok? ==>
              forall i :: 0 <= i < |ts| ==> ToIds(Tokens(ts)).value[i] == CardToInt(ts[i]).value
  {
    forall i | 0 <= i < |ts| {
      TokenConverts(ts[i]);
    }
  }

  /** A string whose first two characters spell a card; later characters
      are never read. */
  predicate Spelled(t: string) {
    |t| >= 2 && t[0] in RankChars && t[1] in SuitChars
  }

  lemma TokenConverts(t: string)
    ensures CardStrToInt(t).Ok? <==> Spelled(t)
    ensures Spelled(t) ==> CardStrToInt(t).value == CardToInt(t).value
  {
    DecodersAgree(t);
  }

  /** `[c for c in self.full_deck if c not in visible]`, over ids `lo..51`. */
  function PoolFrom(visible: seq<Card>, lo: nat): (r: seq<Card>)
    decreases 52 - lo
  {
    if lo >= 52 then []
    else if lo in visible then PoolFrom(visible, lo + 1)
    else [lo] + PoolFrom(visible, lo + 1)
  }

  function Pool(visible: seq<Card>): seq<Card> { PoolFrom(visible, 0) }

  /** The pool is the ids from `lo` on that are not visible, each once and in
      increasing order. */
  lemma {:induction false} PoolFromFacts(visible: seq<Card>, lo: nat)
    ensures forall c :: c in PoolFrom(visible, lo) <==> lo <= c < 52 && c !in visible
    ensures forall i :: 0 <= i < |PoolFrom(visible, lo)| ==> PoolFrom(visible, lo)[i] >= lo
    ensures Distinct(PoolFrom(visible, lo))
    decreases 52 - lo
  {
    if lo < 52 {
      PoolFromFacts(visible, lo + 1);
    }
  }

  /** No card of the pool is visible, and every hidden card is in it. */
  lemma PoolFacts(visible: seq<Card>)
    ensures forall c: Card :: c in Pool(visible) <==> c !in visible
    ensures Distinct(Pool(visible))
  {
    PoolFromFacts(visible, 0);
  }

  /** What the source assumes of its arguments: two hole cards and at most
      five board cards, all different. */
  predicate Situation(hole: seq<Card>, board: seq<Card>) {
    |hole| == 2 && |board| <= 5 && Distinct(hole + board)
  }

  /** `random.sample(deck, 2 + needed_board)`: distinct cards of the pool. */
  predicate SampleOf(hole: seq<Card>, board: seq<Card>, drawn: seq<Card>)
    requires |board| <= 5
  {
    |drawn| == 7 - |board| && Distinct(drawn) &&
    forall i :: 0 <= i < |drawn| ==> drawn[i] in Pool(hole + board)
  }

  predicate Samples(hole: seq<Card>, board: seq<Card>, samples: seq<seq<Card>>)
    requires |board| <= 5
  {
    forall k :: 0 <= k < |samples| ==> SampleOf(hole, board, samples[k])
  }

  /** The first two drawn cards are the opponent's, the rest the runout. */
  function OppCards(drawn: seq<Card>): seq<Card>
    requires |drawn| >= 2
  {
    drawn[..2]
  }

  function FullBoard(board: seq<Card>, drawn: seq<Card>): seq<Card>
    requires |drawn| >= 2
  {
    board + drawn[2..]
  }

  /** Both seven-card hands of a sample are valid inputs of the evaluator:
      the board is completed to five cards and no card is dealt twice. */
  lemma SampleHands(hole: seq<Card>, board: seq<Card>, drawn: seq<Card>)
    requires Situation(hole, board) && SampleOf(hole, board, drawn)
    ensures |FullBoard(board, drawn)| == 5
    ensures ValidHand(hole + FullBoard(board, drawn))
    ensures ValidHand(OppCards(drawn) + FullBoard(board, drawn))
  {
    HiddenDrawn(hole, board, drawn);
    var opp, runout := drawn[..2], drawn[2..];
    assert drawn == opp + runout;
    DistinctParts(opp, runout);
    DistinctParts(hole, board);
    MyHand(hole, board, runout);
    assert hole + FullBoard(board, drawn) == hole + (board + runout);
    OppHand(opp, board, runout);
  }

  /** No drawn card is visible. */
  lemma HiddenDrawn(hole: seq<Card>, board: seq<Card>, drawn: seq<Card>)
    requires |board| <= 5 && SampleOf(hole, board, drawn)
    ensures forall x :: x in drawn ==> x !in hole + board
  {
    PoolFacts(hole + board);
    forall x | x in drawn ensures x !in hole + board {
      var i :| 0 <= i < |drawn| && drawn[i] == x;
    }
  }

  lemma MyHand(hole: seq<Card>, board: seq<Card>, runout: seq<Card>)
    requires Distinct(hole + board) && Distinct(runout)
    requires forall x :: x in runout ==> x !in hole + board
    ensures Distinct(hole + (board + runout))
  {
    DistinctConcat(hole + board, runout);
    assert hole + (board + runout) == (hole + board) + runout;
  }

  lemma OppHand(opp: seq<Card>, board: seq<Card>, runout: seq<Card>)
    requires Distinct(opp) && Distinct(board) && Distinct(runout)
    requires forall x :: x in opp ==> x !in runout
    requires forall x :: x in opp + runout ==> x !in board
    ensures Distinct(opp + (board + runout))
  {
    forall x | x in runout ensures x !in board {
      assert x in opp + runout;
    }
    DistinctConcat(board, runout);
    forall x | x in opp ensures x !in board + runout {
      assert x in opp + runout;
    }
    DistinctConcat(opp, board + runout);
  }

  /** The parts of a sequence without repeats have none. */
  lemma DistinctParts(a: seq<Card>, b: seq<Card>)
    requires Distinct(a + b)
    ensures Distinct(a) && Distinct(b) && forall x :: x in a ==> x !in b
  {
    forall i, j | 0 <= i < j < |a| ensures a[i] != a[j] {
      assert (a + b)[i] == a[i] && (a + b)[j] == a[j];
    }
    forall i, j | 0 <= i < j < |b| ensures b[i] != b[j] {
      assert (a + b)[|a| + i] == b[i] && (a + b)[|a| + j] == b[j];
    }
    forall i, j | 0 <= i < |a| && 0 <= j < |b| ensures a[i] != b[j] {
      assert (a + b)[i] == a[i] && (a + b)[|a| + j] == b[j];
    }
  }

  /** Two sequences without repeats and without a common element join into
      one without repeats. */
  lemma DistinctConcat(a: seq<Card>, b: seq<Card>)
    requires Distinct(a) && Distinct(b) && forall x :: x in a ==> x !in b
    ensures Distinct(a + b)
  {
    var c := a + b;
    forall i, j | 0 <= i < j < |c| ensures c[i] != c[j] {
      if j < |a| {
        assert c[i] == a[i] && c[j] == a[j];
      } else if i >= |a| {
        assert c[i] == b[i - |a|] && c[j] == b[j - |a|];
      } else {
        assert c[i] == a[i] && c[j] == b[j - |a|];
        assert a[i] in a && b[j - |a|] in b;
      }
    }
  }

  datatype Outcome = Win | Split | Loss

  /** Lines 84-90: my score against the opponent's on one sample. */
  function Duel(hole: seq<Card>, board: seq<Card>, drawn: seq<Card>): Outcome
    requires Situation(hole, board) && SampleOf(hole, board, drawn)
  {
    SampleHands(hole, board, drawn);
    var mine := Score(Evaluate(hole + FullBoard(board, drawn)));
    var theirs := Score(Evaluate(OppCards(drawn) + FullBoard(board, drawn)));
    if mine > theirs then Win else if mine == theirs then Split else Loss
  }

  /** Counting one outcome into `(wins, splits)`. */
  function Bump(t: (nat, nat), o: Outcome): (nat, nat) {
    match o
    case Win => (t.0 + 1, t.1)
    case Split => (t.0, t.1 + 1)
    case Loss => t
  }

  /** `(wins, splits)` after the given samples. */
  function Tally(hole: seq<Card>, board: seq<Card>, samples: seq<seq<Card>>): (r: (nat, nat))
    requires Situation(hole, board) && Samples(hole, board, samples)
    ensures r.0 + r.1 <= |samples|
  {
    if |samples| == 0 then (0, 0)
    else Bump(Tally(hole, board, samples[..|samples| - 1]), Duel(hole, board, samples[|samples| - 1]))
  }

  /** `(wins + splits / 2.0) / iterations` */
  function Share(wins: nat, splits: nat, n: nat): real
    requires n > 0
  {
    (wins as real + splits as real / 2.0) / n as real
  }

  /** A share lies in [0,1]; it is 1 exactly when every sample is won and 0
      exactly when none is won or split. */
  lemma ShareBounds(wins: nat, splits: nat, n: nat)
    requires n > 0 && wins + splits <= n
    ensures 0.0 <= Share(wins, splits, n) <= 1.0
    ensures Share(wins, splits, n) == 1.0 <==> wins == n
    ensures Share(wins, splits, n) == 0.0 <==> wins == 0 && splits == 0
  {
    var x := wins as real + splits as real / 2.0;
    assert x == n as real <==> wins == n;
    RatioBounds(x, n as real);
  }

  lemma RatioBounds(x: real, n: real)
    requires n > 0.0 && 0.0 <= x <= n
    ensures 0.0 <= x / n <= 1.0
    ensures x / n == 1.0 <==> x == n
    ensures x / n == 0.0 <==> x == 0.0
  {
    assert (x / n) * n == x;
  }

  /** The whole of `calculate_equity`, given the samples it draws. */
  function EquityOf(hole: CardList, board: CardList, samples: seq<seq<Card>>, iterations: nat): Result<real, EquityError>
    requires Drawable(hole, board, samples, iterations)
  {
    match ToIds(hole)
    case Err(e) => Err(BadCard(e))
    case Ok(h) =>
      match ToIds(board)
      case Err(e) => Err(BadCard(e))
      case Ok(b) =>
        if iterations == 0 then Err(NoIterations)
        else var t := Tally(h, b, samples); Ok(Share(t.0, t.1, iterations))
  }

  /** The caller's side: once the cards convert, they form a hold'em
      situation, and there is one valid sample per iteration. */
  predicate Drawable(hole: CardList, board: CardList, samples: seq<seq<Card>>, iterations: nat) {
    ToIds(hole).Ok? && ToIds(board).Ok? ==>
      Situation(ToIds(hole).value, ToIds(board).value) && |samples| == iterations &&
      Samples(ToIds(hole).value, ToIds(board).value, samples)
  }

  /** An equity, when there is one, lies in [0,1]. */
  lemma EquityInUnit(hole: CardList, board: CardList, samples: seq<seq<Card>>, iterations: nat)
    requires Drawable(hole, board, samples, iterations)
    ensures EquityOf(hole, board, samples, iterations).Ok? ==> 0.0 <= EquityOf(hole, board, samples, iterations).value <= 1.0
    ensures EquityOf(hole, board, samples, iterations).Err? <==>
              ToIds(hole).Err? || ToIds(board).Err? || iterations == 0
  {
    if ToIds(hole).Ok? && ToIds(board).Ok? && iterations > 0 {
      var t := Tally(ToIds(hole).value, ToIds(board).value, samples);
      ShareBounds(t.0, t.1, iterations);
    }
  }

  /** `calculate_equity(hole_cards, board, iterations=iterations)`. */
  method CalculateEquity(hole: CardList, board: CardList, samples: seq<seq<Card>>, iterations: nat)
    returns (r: Result<real, EquityError>)
    requires Drawable(hole, board, samples, iterations)
    ensures r == EquityOf(hole, board, samples, iterations)
  {
    var h := ToIds(hole);
    if h.Err? {
      return Err(BadCard(h.error));
    }
    var b := ToIds(board);
    if b.Err? {
      return Err(BadCard(b.error));
    }
    var wins, splits := CountOutcomes(h.value, b.value, samples);
    if iterations == 0 {
      return Err(NoIterations);
    }
    return Ok((wins as real + splits as real / 2.0) / iterations as real);
  }

  /** The sampling loop of lines 71-90. */
  method CountOutcomes(hole: seq<Card>, board: seq<Card>, samples: seq<seq<Card>>) returns (wins: nat, splits: nat)
    requires Situation(hole, board) && Samples(hole, board, samples)
    ensures (wins, splits) == Tally(hole, board, samples)
  {
    wins, splits := 0, 0;
    for i := 0 to |samples|
      invariant Samples(hole, board, samples[..i])
      invariant (wins, splits) == Tally(hole, board, samples[..i])
    {
      var outcome := PlayOut(hole, board, samples[i]);
      TallyStep(hole, board, samples, i);
      if outcome == Win {
        wins := wins + 1;
      } else if outcome == Split {
        splits := splits + 1;
      }
    }
    assert samples[..|samples|] == samples;
  }

  lemma TallyStep(hole: seq<Card>, board: seq<Card>, samples: seq<seq<Card>>, i: nat)
    requires Situation(hole, board) && Samples(hole, board, samples) && i < |samples|
    ensures Samples(hole, board, samples[..i]) && Samples(hole, board, samples[..i + 1])
    ensures Tally(hole, board, samples[..i + 1]) == Bump(Tally(hole, board, samples[..i]), Duel(hole, board, samples[i]))
  {
    var p := samples[..i + 1];
    assert p[..i] == samples[..i] && p[i] == samples[i];
    forall k | 0 <= k < i + 1 ensures SampleOf(hole, board, p[k]) {
      assert p[k] == samples[k];
    }
    forall k | 0 <= k < i ensures SampleOf(hole, board, samples[..i][k]) {
      assert samples[..i][k] == samples[k];
    }
  }

  /** One iteration: both hands are evaluated on the completed board. */
  method PlayOut(hole: seq<Card>, board: seq<Card>, drawn: seq<Card>) returns (o: Outcome)
    requires Situation(hole, board) && SampleOf(hole, board, drawn)
    ensures o == Duel(hole, board, drawn)
  {
    SampleHands(hole, board, drawn);
    var fullBoard := board + drawn[2..];
    var myScore := EvaluateHand(hole + fullBoard);
    var oppScore := EvaluateHand(drawn[..2] + fullBoard);
    if myScore > oppScore {
      o := Win;
    } else if myScore == oppScore {
      o := Split;
    } else {
      o := Loss;
    }
  }
}
