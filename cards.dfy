/** Card ids and card tokens.
    A card id is an integer in [0,52): rank = id % 13 (0 = Two .. 12 = Ace),
    suit = id / 13 (0 = s, 1 = h, 2 = d, 3 = c).  A token is a two-character
    string such as "As" or "Td".  The codec exists three times in the source:
    `card_to_int`/`int_to_card` in src/match_engine.py, `card_str_to_int` in
    src/strategies/equity_calculator.py, and the string deck of scripts/run_NN.py. */
module Cards {
  import opened Wrappers

  type Card = c: int | 0 <= c < 52

  const RankChars: string := "23456789TJQKA"
  const SuitChars: string := "shdc"

  function Rank(c: Card): (r: nat)
    ensures r < 13
  {
    c % 13
  }

  function Suit(c: Card): (s: nat)
    ensures s < 4
  {
    c / 13
  }

  /** The one failure of a lookup: a missing character (Python `IndexError`)
      or a character outside the rank or suit alphabet (`KeyError` in
      match_engine, `ValueError` in equity_calculator). */
  datatype CardError = MissingChar | UnknownRank(r: char) | UnknownSuit(s: char)

  /** Position of `ch` in `s`, the first one, or None. */
  function IndexOf(s: string, ch: char): (r: Option<nat>)
    ensures r.Some? ==> r.value < |s| && s[r.value] == ch && ch !in s[..r.value]
    ensures r.None? <==> ch !in s
  {
    if |s| == 0 then None
    else if s[0] == ch then Some(0)
    else match IndexOf(s[1..], ch)
      case None => None
      case Some(k) => Some(k + 1)
  }

  /** `RANK_MAP[ch]` / `"23456789TJQKA".index(ch)` */
  function RankValue(ch: char): (r: Option<nat>)
    ensures r.Some? <==> ch in RankChars
    ensures r.Some? ==> r.value < 13
  {
    IndexOf(RankChars, ch)
  }

  /** `SUIT_MAP[ch]` and the if-chain of `card_str_to_int` */
  function SuitValue(ch: char): (r: Option<nat>)
    ensures r.Some? <==> ch in SuitChars
    ensures r.Some? ==> r.value < 4
  {
    IndexOf(SuitChars, ch)
  }

  /** The id of a rank index and a suit index. */
  function CardOf(rank: nat, suit: nat): (c: Card)
    requires rank < 13 && suit < 4
    ensures Rank(c) == rank && Suit(c) == suit
  {
    rank + suit * 13
  }

  /** `match_engine.card_to_int`: the rank lookup of `card_str[0]` runs before
      `card_str[1]` is read; characters after the second are ignored. */
  function CardToInt(s: string): (r: Result<Card, CardError>)
    ensures r.Ok? <==> |s| >= 2 && s[0] in RankChars && s[1] in SuitChars
    ensures r.Ok? ==> Rank(r.value) == RankValue(s[0]).value && Suit(r.value) == SuitValue(s[1]).value
  {
    if |s| == 0 then Err(MissingChar)
    else match RankValue(s[0])
      case None => Err(UnknownRank(s[0]))
      case Some(rk) =>
        if |s| < 2 then Err(MissingChar)
        else match SuitValue(s[1])
          case None => Err(UnknownSuit(s[1]))
          case Some(st) => Ok(CardOf(rk, st))
  }

  /** The token of a rank index and a suit index. */
  function Token(rank: nat, suit: nat): (s: string)
    requires rank < 13 && suit < 4
    ensures |s| == 2
  {
    [RankChars[rank], SuitChars[suit]]
  }

  lemma TokenIsToken(rank: nat, suit: nat)
    requires rank < 13 && suit < 4
    ensures IsToken(Token(rank, suit))
  {
    assert RankChars[rank] in RankChars && SuitChars[suit] in SuitChars;
  }

  lemma RankAt(k: nat)
    requires k < 13
    ensures RankValue(RankChars[k]) == Some(k)
  {
    IndexOfDistinct(RankChars, k);
  }

  lemma SuitAt(k: nat)
    requires k < 4
    ensures SuitValue(SuitChars[k]) == Some(k)
  {
    IndexOfDistinct(SuitChars, k);
  }

  /** `match_engine.int_to_card` */
  function IntToCard(c: Card): (s: string)
    ensures |s| == 2
  {
    Token(Rank(c), Suit(c))
  }

  /** The token of a card is valid and names the card's rank and suit. */
  lemma IntToCardSpells(c: Card)
    ensures IsToken(IntToCard(c))
    ensures RankValue(IntToCard(c)[0]) == Some(Rank(c)) && SuitValue(IntToCard(c)[1]) == Some(Suit(c))
  {
    TokenIsToken(Rank(c), Suit(c));
    RankAt(Rank(c));
    SuitAt(Suit(c));
  }

  /** In a string without repeated characters, the index of the k-th
      character is k. */
  lemma {:induction false} IndexOfDistinct(s: string, k: nat)
    requires k < |s|
    requires forall i, j :: 0 <= i < j < |s| ==> s[i] != s[j]
    ensures IndexOf(s, s[k]) == Some(k)
  {
    if k > 0 {
      assert s[1..][k - 1] == s[k];
      IndexOfDistinct(s[1..], k - 1);
    }
  }

  /** `equity_calculator.card_str_to_int`: both characters are read before
      either lookup, so a one-character string fails on the missing character
      whatever it is. */
  function CardStrToInt(s: string): (r: Result<Card, CardError>)
    ensures r.Ok? <==> |s| >= 2 && s[0] in RankChars && s[1] in SuitChars
  {
    if |s| < 2 then Err(MissingChar)
    else match RankValue(s[0])
      case None => Err(UnknownRank(s[0]))
      case Some(rank) =>
        match SuitValue(s[1])
        case None => Err(UnknownSuit(s[1]))
        case Some(suit) => Ok(suit * 13 + rank)
  }

  /** The 52 valid tokens. */
  predicate IsToken(s: string) {
    |s| == 2 && s[0] in RankChars && s[1] in SuitChars
  }

  lemma {:induction false} TokenRoundTrip(s: string)
    requires IsToken(s)
    ensures CardToInt(s).Ok? && IntToCard(CardToInt(s).value) == s
  {
    var c := CardToInt(s).value;
    var t := IntToCard(c);
    IntToCardSpells(c);
    IndexOfChar(RankChars, s[0]);
    IndexOfChar(SuitChars, s[1]);
    assert RankValue(t[0]) == RankValue(s[0]);
    assert SuitValue(t[1]) == SuitValue(s[1]);
    IndexOfInjective(RankChars, t[0], s[0]);
    IndexOfInjective(SuitChars, t[1], s[1]);
  }

  lemma IndexOfChar(s: string, ch: char)
    requires ch in s
    ensures IndexOf(s, ch).Some?
  {
  }

  lemma IndexOfInjective(s: string, a: char, b: char)
    requires IndexOf(s, a).Some? && IndexOf(s, a) == IndexOf(s, b)
    ensures a == b
  {
  }

  lemma IdRoundTrip(c: Card)
    ensures CardToInt(IntToCard(c)) == Ok(c)
  {
    var s := IntToCard(c);
    IntToCardSpells(c);
    assert RankValue(s[0]).value + SuitValue(s[1]).value * 13 == c;
  }

  /** The two string decoders accept exactly the same tokens and agree on them. */
  lemma DecodersAgree(s: string)
    ensures CardToInt(s).Ok? <==> CardStrToInt(s).Ok?
    ensures CardToInt(s).Ok? ==> CardToInt(s).value == CardStrToInt(s).value
  {
  }

  // ---------------------------------------------------------------------
  // The string deck of scripts/run_NN.py

  /** A token decodes to its rank and suit. */
  lemma TokenDecodes(rank: nat, suit: nat)
    requires rank < 13 && suit < 4
    ensures CardToInt(Token(rank, suit)) == Ok(rank + 13 * suit)
  {
    TokenIsToken(rank, suit);
    RankAt(rank);
    SuitAt(suit);
  }

  /** `create_deck`: rank-major, `[r + s for r in ranks for s in suits]`. */
  function CreateDeck(): (deck: seq<string>)
    ensures |deck| == 52
  {
    seq(52, i requires 0 <= i < 52 => Token(i / 4, i % 4))
  }

  lemma CreateDeckTokens(i: nat)
    requires i < 52
    ensures IsToken(CreateDeck()[i])
    ensures CardToInt(CreateDeck()[i]) == Ok((i / 4) + 13 * (i % 4))
  {
    TokenIsToken(i / 4, i % 4);
    TokenDecodes(i / 4, i % 4);
  }

  /** Distinct positions of the deck decode to distinct cards. */
  lemma PositionsDistinct(i: nat, j: nat)
    requires i < j < 52
    ensures (i / 4) + 13 * (i % 4) != (j / 4) + 13 * (j % 4)
  {
  }

  /** The 52 tokens are distinct, and every valid token is in the deck. */
  lemma CreateDeckIsFullDeck()
    ensures forall i, j :: 0 <= i < j < 52 ==> CreateDeck()[i] != CreateDeck()[j]
    ensures forall s :: IsToken(s) ==> s in CreateDeck()
  {
    forall i, j | 0 <= i < j < 52 ensures CreateDeck()[i] != CreateDeck()[j] {
      CreateDeckTokens(i);
      CreateDeckTokens(j);
      PositionsDistinct(i, j);
    }
    forall s | IsToken(s) ensures s in CreateDeck() {
      var rk := RankValue(s[0]).value;
      var st := SuitValue(s[1]).value;
      var i := 4 * rk + st;
      assert i / 4 == rk && i % 4 == st;
      assert RankChars[rk] == s[0] && SuitChars[st] == s[1];
      assert CreateDeck()[i] == Token(rk, st) == s;
    }
  }

  /** `deal_cards(deck, num)`: `(deck[:num], deck[num:])`; Python slicing
      clamps `num` to the length. */
  function DealCards<T>(deck: seq<T>, num: nat): (r: (seq<T>, seq<T>))
    ensures r.0 + r.1 == deck
    ensures |r.0| == if num <= |deck| then num else |deck|
    ensures r.0 == deck[..|r.0|]
  {
    if num <= |deck| then (deck[..num], deck[num..]) else (deck, [])
  }
}
