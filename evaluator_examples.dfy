/** The hands of the evaluator's own test (scripts/verify_engine.py), worked
    through the reference definition. Card ids are `rank + 13 * suit` with
    suits in the order s, h, d, c, as `card_to_int` decodes them: As Ks Qs
    Js Ts 2d 3d are 12 11 10 9 8 26 27; Ad, Ah, Ac, 2s, 4c and Kd are 38,
    25, 51, 0, 41 and 37. */
module EvaluatorExamples {
  import opened Wrappers
  import opened Cards
  import opened Evaluator
  import opened EvaluatorProps

  const RoyalFlush: seq<Card> := [12, 11, 10, 9, 8, 26, 27]

  lemma RoyalFlushSuit()
    ensures ValidHand(RoyalFlush) && SuitCount(RoyalFlush, 0) >= 5
    ensures FlushRanks(RoyalFlush, 0) == {12, 11, 10, 9, 8}
  {
    assert SuitCards(RoyalFlush, 0) == {12, 11, 10, 9, 8};
  }

  lemma RoyalFlushExample()
    ensures ValidHand(RoyalFlush)
    ensures Evaluate(RoyalFlush) == HandValue(8, [12])
    ensures Score(Evaluate(RoyalFlush)) == 0x8C_0000
  {
    RoyalFlushSuit();
    FlushOnlyFromSuit(RoyalFlush);
    assert StraightHigh({12, 11, 10, 9, 8}) == Some(12);
    Score1(8, 12);
  }

  const Quads: seq<Card> := [12, 38, 25, 51, 0, 27, 41]
  const QuadsCounts: seq<int> := [1, 1, 1, 0, 0, 0, 0, 0, 0, 0, 0, 0, 4]

  lemma QuadsNoFlush()
    ensures ValidHand(Quads) && FlushSuit(Quads) == None
  {
    QuadsSuit(0);
    QuadsSuit(1);
    QuadsSuit(2);
    QuadsSuit(3);
  }

  lemma QuadsSuit(s: int)
    requires 0 <= s < 4
    ensures SuitCount(Quads, s) < 5
  {
    if s == 0 {
      assert SuitCards(Quads, 0) == {12, 0};
    } else if s == 1 {
      assert SuitCards(Quads, 1) == {25};
    } else if s == 2 {
      assert SuitCards(Quads, 2) == {38, 27};
    } else {
      assert SuitCards(Quads, 3) == {51, 41};
    }
  }

  lemma QuadsRanks()
    ensures RankSet(Quads) == {12, 0, 1, 2}
    ensures RankCounts(Quads) == QuadsCounts
  {
    forall r | 0 <= r < 13 ensures RankCount(Quads, r) == QuadsCounts[r] {
      QuadsRank(r);
    }
    QuadsRankSet();
  }

  lemma QuadsRankSet()
    ensures RankSet(Quads) == {12, 0, 1, 2}
  {
    assert Quads[0] in Quads && Quads[4] in Quads && Quads[5] in Quads && Quads[6] in Quads;
    forall c | c in Quads ensures Rank(c) in {12, 0, 1, 2} {
    }
  }

  lemma QuadsRank(r: int)
    requires 0 <= r < 13
    ensures RankCount(Quads, r) == QuadsCounts[r]
  {
    if r == 12 {
      assert RankCards(Quads, 12) == {12, 38, 25, 51};
    } else if r == 0 {
      assert RankCards(Quads, 0) == {0};
    } else if r == 1 {
      assert RankCards(Quads, 1) == {27};
    } else if r == 2 {
      assert RankCards(Quads, 2) == {41};
    } else {
      QuadsRankAbsent(r);
    }
  }

  lemma QuadsRankAbsent(r: int)
    requires 0 <= r < 13 && r !in {12, 0, 1, 2}
    ensures RankCards(Quads, r) == {}
  {
    forall c | c in Quads ensures Rank(c) in {12, 0, 1, 2} {
    }
  }

  lemma QuadsNoStraight()
    ensures StraightHigh({12, 0, 1, 2}) == None
  {
    assert 3 !in {12, 0, 1, 2} && 7 !in {12, 0, 1, 2} && 11 !in {12, 0, 1, 2};
  }

  lemma QuadsGroups()
    ensures HandCounts(QuadsCounts)
    ensures WithCount(QuadsCounts, 4) == [12]
    ensures Kickers(QuadsCounts, {12}, 1) == [2]
  {
    QuadsSum();
    QuadsQuad();
    QuadsKicker();
  }

  lemma QuadsSum()
    ensures Sum(QuadsCounts, 0) == 7
  {
  }

  lemma QuadsQuad()
    ensures WithCount(QuadsCounts, 4) == [12]
  {
    var counts := QuadsCounts;
    StrictDescIsDesc([12], Holding(counts, 4), 0, 12);
  }

  lemma QuadsKicker()
    ensures Kickers(QuadsCounts, {12}, 1) == [2]
  {
    QuadsOthers();
    StrictDescIsDesc([2, 1, 0], {0, 1, 2}, 0, 12);
  }

  lemma QuadsOthers()
    ensures PresentOf(QuadsCounts) - {12} == {0, 1, 2}
  {
  }

  lemma QuadsExample()
    ensures ValidHand(Quads)
    ensures Evaluate(Quads) == HandValue(7, [12, 2])
    ensures Score(Evaluate(Quads)) == 0x7C_2000
  {
    QuadsNoFlush();
    QuadsRanks();
    QuadsNoStraight();
    QuadsGroups();
    QuadsValue(QuadsCounts);
    Score2(7, 12, 2);
  }

  const FullHouse: seq<Card> := [12, 38, 25, 11, 37, 27, 41]
  const FullHouseCounts: seq<int> := [0, 1, 1, 0, 0, 0, 0, 0, 0, 0, 0, 2, 3]

  lemma FullHouseNoFlush()
    ensures ValidHand(FullHouse) && FlushSuit(FullHouse) == None
  {
    FullHouseSuit(0);
    FullHouseSuit(1);
    FullHouseSuit(2);
    FullHouseSuit(3);
  }

  lemma FullHouseSuit(s: int)
    requires 0 <= s < 4
    ensures SuitCount(FullHouse, s) < 5
  {
    if s == 0 {
      assert SuitCards(FullHouse, 0) == {12, 11};
    } else if s == 1 {
      assert SuitCards(FullHouse, 1) == {25};
    } else if s == 2 {
      assert SuitCards(FullHouse, 2) == {38, 37, 27};
    } else {
      assert SuitCards(FullHouse, 3) == {41};
    }
  }

  lemma FullHouseRankFacts()
    ensures RankSet(FullHouse) == {12, 11, 1, 2}
    ensures RankCounts(FullHouse) == FullHouseCounts
  {
    forall r | 0 <= r < 13 ensures RankCount(FullHouse, r) == FullHouseCounts[r] {
      FullHouseRank(r);
    }
    FullHouseRankSet();
  }

  lemma FullHouseRankSet()
    ensures RankSet(FullHouse) == {12, 11, 1, 2}
  {
    assert FullHouse[0] in FullHouse && FullHouse[3] in FullHouse && FullHouse[5] in FullHouse && FullHouse[6] in FullHouse;
    forall c | c in FullHouse ensures Rank(c) in {12, 11, 1, 2} {
    }
  }

  lemma FullHouseRank(r: int)
    requires 0 <= r < 13
    ensures RankCount(FullHouse, r) == FullHouseCounts[r]
  {
    if r == 12 {
      assert RankCards(FullHouse, 12) == {12, 38, 25};
    } else if r == 11 {
      assert RankCards(FullHouse, 11) == {11, 37};
    } else if r == 1 {
      assert RankCards(FullHouse, 1) == {27};
    } else if r == 2 {
      assert RankCards(FullHouse, 2) == {41};
    } else {
      FullHouseRankAbsent(r);
    }
  }

  lemma FullHouseRankAbsent(r: int)
    requires 0 <= r < 13 && r !in {12, 11, 1, 2}
    ensures RankCards(FullHouse, r) == {}
  {
    forall c | c in FullHouse ensures Rank(c) in {12, 11, 1, 2} {
    }
  }

  lemma FullHouseNoStraight()
    ensures StraightHigh({12, 11, 1, 2}) == None
  {
    assert 0 !in {12, 11, 1, 2} && 3 !in {12, 11, 1, 2} && 7 !in {12, 11, 1, 2} && 10 !in {12, 11, 1, 2};
  }

  lemma FullHouseGroups()
    ensures HandCounts(FullHouseCounts)
    ensures WithCount(FullHouseCounts, 4) == [] && WithCount(FullHouseCounts, 3) == [12]
    ensures WithCount(FullHouseCounts, 2) == [11]
  {
    FullHouseSum();
    FullHouseGroup(4, []);
    FullHouseGroup(3, [12]);
    FullHouseGroup(2, [11]);
  }

  lemma FullHouseSum()
    ensures Sum(FullHouseCounts, 0) == 7
  {
  }

  lemma FullHouseGroup(k: int, expected: seq<int>)
    requires (k == 4 && expected == []) || (k == 3 && expected == [12]) || (k == 2 && expected == [11])
    ensures WithCount(FullHouseCounts, k) == expected
  {
    var counts := FullHouseCounts;
    StrictDescIsDesc(expected, Holding(counts, k), 0, 12);
  }

  lemma FullHouseExample()
    ensures ValidHand(FullHouse)
    ensures Evaluate(FullHouse) == HandValue(6, [12, 11])
    ensures Score(Evaluate(FullHouse)) == 0x6C_B000
  {
    FullHouseNoFlush();
    FullHouseRankFacts();
    FullHouseNoStraight();
    FullHouseGroups();
    FullHouseValue(FullHouseCounts);
    Score2(6, 12, 11);
  }

  /** The evaluator test: the three hands score as categories 8, 7 and 6,
      in strictly decreasing order. */
  lemma ExampleOrder()
    ensures ValidHand(RoyalFlush) && ValidHand(Quads) && ValidHand(FullHouse)
    ensures Score(Evaluate(RoyalFlush)) / 0x10_0000 == 8
    ensures Score(Evaluate(Quads)) / 0x10_0000 == 7
    ensures Score(Evaluate(FullHouse)) / 0x10_0000 == 6
    ensures Score(Evaluate(RoyalFlush)) > Score(Evaluate(Quads)) > Score(Evaluate(FullHouse))
  {
    RoyalFlushExample();
    QuadsExample();
    FullHouseExample();
    var rf, q, fh := Score(Evaluate(RoyalFlush)), Score(Evaluate(Quads)), Score(Evaluate(FullHouse));
    assert rf == 0x8C_0000 && q == 0x7C_2000 && fh == 0x6C_B000;
    assert 0x8C_0000 / 0x10_0000 == 8 && 0x7C_2000 / 0x10_0000 == 7 && 0x6C_B000 / 0x10_0000 == 6;
  }
}
