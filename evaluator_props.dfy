/** Properties of the hand evaluator of src/fast_evaluator.py, stated about
    the reference definition `Evaluator.Evaluate` (which `EvaluateHand` is
    proved to compute). */
module EvaluatorProps {
  import opened Wrappers
  import opened Cards
  import opened Evaluator

  // =====================================================================
  // Score layout

  /** Every hand value is well formed, so `score >> 20` is its category
      0..8 and every score lies in [0, 9 << 20). */
  lemma EvaluateRanges(cards: seq<Card>)
    requires ValidHand(cards)
    ensures WellFormed(Evaluate(cards))
    ensures 0 <= Score(Evaluate(cards)) < 9 * 0x10_0000
    ensures Score(Evaluate(cards)) / 0x10_0000 == Evaluate(cards).category
  {
    EvaluateWellFormed(cards);
    Pow16Values();
    ScoreBounds(Evaluate(cards));
  }

  lemma EvaluateWellFormed(cards: seq<Card>)
    requires ValidHand(cards)
    ensures WellFormed(Evaluate(cards))
  {
    match FlushSuit(cards)
    case Some(fs) =>
      FlushValueWellFormed(cards, fs);
    case None =>
      NoFlushValueWellFormed(cards);
  }

  lemma FlushValueWellFormed(cards: seq<Card>, fs: int)
    requires Distinct(cards) && SuitCount(cards, fs) >= 5
    ensures WellFormed(FlushValue(cards, fs))
  {
    var fr := FlushRanks(cards, fs);
    StraightHighSpec(fr);
    if StraightHigh(fr).None? {
      FlushRanksSorted(cards, fs);
      DescMembers(fr, 0, 12);
      var top := Ranked(fr)[..5];
      forall i | 0 <= i < 5 ensures 0 <= top[i] <= 12 {
        assert top[i] in Ranked(fr);
      }
    }
  }

  lemma NoFlushValueWellFormed(cards: seq<Card>)
    requires ValidHand(cards)
    ensures WellFormed(NoFlushValue(cards))
  {
    StraightHighSpec(RankSet(cards));
    if StraightHigh(RankSet(cards)).None? {
      HandCountsOf(cards);
      OfAKindWellFormed(RankCounts(cards));
    }
  }

  /** The kickers are ranks present in the hand outside `exclude`, at most `n`. */
  lemma KickersMembers(counts: seq<int>, exclude: set<int>, n: nat)
    requires |counts| == 13
    ensures |Kickers(counts, exclude, n)| <= n
    ensures forall i :: 0 <= i < |Kickers(counts, exclude, n)| ==>
              0 <= Kickers(counts, exclude, n)[i] < 13 && counts[Kickers(counts, exclude, n)[i]] > 0 &&
              Kickers(counts, exclude, n)[i] !in exclude
  {
    var S := PresentOf(counts) - exclude;
    DescMembers(S, 0, 12);
    var ks := Kickers(counts, exclude, n);
    forall i | 0 <= i < |ks| ensures 0 <= ks[i] < 13 && counts[ks[i]] > 0 && ks[i] !in exclude {
      assert ks[i] == Ranked(S)[i];
      assert Ranked(S)[i] in Ranked(S);
    }
  }

  /** Which branch of `OfAKind` a category comes from. */
  lemma OfAKindCategory(counts: seq<int>)
    requires HandCounts(counts)
    ensures var q, t, p := |WithCount(counts, 4)|, |WithCount(counts, 3)|, |WithCount(counts, 2)|;
            var c := OfAKind(counts).category;
            (c == 7 <==> q > 0) &&
            (c == 6 <==> q == 0 && t > 0 && (t >= 2 || p > 0)) &&
            (c == 3 <==> q == 0 && t == 1 && p == 0) &&
            (c == 2 <==> q == 0 && t == 0 && p >= 2) &&
            (c == 1 <==> q == 0 && t == 0 && p == 1) &&
            (c == 0 <==> q == 0 && t == 0 && p == 0)
  {
  }

  /** Entry `i` of `WithCount(counts, k)` is a rank held `k` times. */
  lemma WithCountAt(counts: seq<int>, k: int, i: nat)
    requires |counts| == 13 && i < |WithCount(counts, k)|
    ensures 0 <= WithCount(counts, k)[i] < 13 && counts[WithCount(counts, k)[i]] == k
  {
    WithCountMembers(counts, k);
    assert WithCount(counts, k)[i] in WithCount(counts, k);
  }

  lemma WithCountSorted(counts: seq<int>, k: int)
    requires |counts| == 13
    ensures StrictDesc(WithCount(counts, k))
  {
    WithCountMembers(counts, k);
  }

  lemma KickedWellFormed(c: int, head: seq<int>, counts: seq<int>, exclude: set<int>, n: nat)
    requires |counts| == 13 && 0 <= c <= 8 && |head| + n <= 5
    requires forall i :: 0 <= i < |head| ==> 0 <= head[i] <= 12
    ensures WellFormed(HandValue(c, head + Kickers(counts, exclude, n)))
  {
    var ks := Kickers(counts, exclude, n);
    KickersMembers(counts, exclude, n);
    var r := head + ks;
    forall i | 0 <= i < |r| ensures 0 <= r[i] <= 12 {
      if i >= |head| {
        assert r[i] == ks[i - |head|];
      }
    }
  }

  lemma FirstKicker(counts: seq<int>, exclude: set<int>)
    requires |counts| == 13
    ensures 0 <= FirstOr(Kickers(counts, exclude, 1), 0) <= 12
  {
    KickersMembers(counts, exclude, 1);
  }

  lemma QuadsWellFormed(counts: seq<int>)
    requires |counts| == 13 && |WithCount(counts, 4)| > 0
    ensures var q := WithCount(counts, 4)[0];
            WellFormed(HandValue(7, [q, FirstOr(Kickers(counts, {q}, 1), 0)]))
  {
    WithCountAt(counts, 4, 0);
    FirstKicker(counts, {WithCount(counts, 4)[0]});
  }

  lemma FullHouseWellFormed(counts: seq<int>)
    requires |counts| == 13 && |WithCount(counts, 3)| > 0
    requires |WithCount(counts, 3)| >= 2 || |WithCount(counts, 2)| > 0
    ensures WellFormed(HandValue(6, [WithCount(counts, 3)[0], FullHouseSecond(WithCount(counts, 3), WithCount(counts, 2))]))
  {
    var trips := WithCount(counts, 3);
    var pairs := WithCount(counts, 2);
    WithCountAt(counts, 3, 0);
    if |trips| >= 2 {
      WithCountAt(counts, 3, 1);
    }
    if |pairs| > 0 {
      WithCountAt(counts, 2, 0);
    }
    SecondInRange(trips, pairs);
  }

  lemma SecondInRange(trips: seq<int>, pairs: seq<int>)
    requires |trips| >= 2 || |pairs| > 0
    requires |trips| >= 2 ==> 0 <= trips[1] <= 12
    requires |pairs| > 0 ==> 0 <= pairs[0] <= 12
    ensures 0 <= FullHouseSecond(trips, pairs) <= 12
  {
  }

  lemma TripsWellFormed(counts: seq<int>)
    requires |counts| == 13 && |WithCount(counts, 3)| > 0
    ensures var t := WithCount(counts, 3)[0];
            WellFormed(HandValue(3, [t] + Kickers(counts, {t}, 2)))
  {
    var t := WithCount(counts, 3)[0];
    WithCountAt(counts, 3, 0);
    KickedWellFormed(3, [t], counts, {t}, 2);
  }

  lemma TwoPairWellFormed(counts: seq<int>)
    requires |counts| == 13 && |WithCount(counts, 2)| >= 2
    ensures var p := WithCount(counts, 2);
            WellFormed(HandValue(2, [p[0], p[1], FirstOr(Kickers(counts, {p[0], p[1]}, 1), 0)]))
  {
    var pairs := WithCount(counts, 2);
    WithCountAt(counts, 2, 0);
    WithCountAt(counts, 2, 1);
    FirstKicker(counts, {pairs[0], pairs[1]});
  }

  lemma OnePairWellFormed(counts: seq<int>)
    requires |counts| == 13 && |WithCount(counts, 2)| > 0
    ensures var p := WithCount(counts, 2)[0];
            WellFormed(HandValue(1, [p] + Kickers(counts, {p}, 3)))
  {
    var p := WithCount(counts, 2)[0];
    WithCountAt(counts, 2, 0);
    KickedWellFormed(1, [p], counts, {p}, 3);
  }

  lemma HighCardWellFormed(counts: seq<int>)
    requires |counts| == 13
    ensures WellFormed(HandValue(0, Kickers(counts, {}, 5)))
  {
    KickersMembers(counts, {}, 5);
  }

  lemma OfAKindWellFormed(counts: seq<int>)
    requires HandCounts(counts)
    ensures WellFormed(OfAKind(counts))
  {
    var quads := WithCount(counts, 4);
    var trips := WithCount(counts, 3);
    var pairs := WithCount(counts, 2);
    if |quads| > 0 {
      QuadsValue(counts);
      QuadsWellFormed(counts);
    } else if |trips| > 0 && (|trips| >= 2 || |pairs| > 0) {
      FullHouseValue(counts);
      FullHouseWellFormed(counts);
    } else if |trips| == 1 {
      TripsValue(counts);
      TripsWellFormed(counts);
    } else if |pairs| >= 2 {
      TwoPairValue(counts);
      TwoPairWellFormed(counts);
    } else if |pairs| == 1 {
      OnePairValue(counts);
      OnePairWellFormed(counts);
    } else {
      HighCardValue(counts);
      HighCardWellFormed(counts);
    }
  }

  // =====================================================================
  // Straights

  /** A straight with high rank `h`: the window `h-4..h`, or the wheel for `h == 3`. */
  predicate StraightAt(mask: set<int>, h: int) {
    (4 <= h <= 12 && Window(h) <= mask) || (h == 3 && Wheel <= mask)
  }

  predicate BestStraight(mask: set<int>, h: int) {
    3 <= h <= 12 && StraightAt(mask, h) && forall j :: h < j <= 12 ==> !StraightAt(mask, j)
  }

  lemma {:induction false} ScanFromSpec(mask: set<int>, i: int)
    requires 3 <= i <= 12
    ensures ScanFrom(mask, i).Some? ==>
              3 <= ScanFrom(mask, i).value <= i && StraightAt(mask, ScanFrom(mask, i).value) &&
              forall j :: ScanFrom(mask, i).value < j <= i ==> !StraightAt(mask, j)
    ensures ScanFrom(mask, i).None? ==> forall j :: 3 <= j <= i ==> !StraightAt(mask, j)
    decreases i
  {
    if i > 3 {
      ScanFromSpec(mask, i - 1);
    }
  }

  /** The scan returns the highest straight in the mask, and nothing
      exactly when the mask holds none. */
  lemma StraightHighSpec(mask: set<int>)
    ensures StraightHigh(mask).None? <==> forall j :: 3 <= j <= 12 ==> !StraightAt(mask, j)
    ensures forall h :: StraightHigh(mask) == Some(h) <==> BestStraight(mask, h)
  {
    ScanFromSpec(mask, 12);
    forall h | BestStraight(mask, h) ensures StraightHigh(mask) == Some(h) {
      var g := StraightHigh(mask).value;
      assert !(g < h) && !(h < g);
    }
  }

  /** A wheel scores strictly below every other straight of the same category. */
  lemma WheelIsLowest(wheel: set<int>, other: set<int>, category: int)
    requires StraightHigh(wheel) == Some(3)
    requires StraightHigh(other).Some? && StraightHigh(other) != Some(3)
    ensures Score(HandValue(category, [3])) < Score(HandValue(category, [StraightHigh(other).value]))
  {
    StraightHighSpec(other);
    Score1(category, 3);
    Score1(category, StraightHigh(other).value);
  }

  // =====================================================================
  // Flushes

  /** Five cards of one suit give category 8 or 5 and nothing else does;
      category 8 is exactly a straight inside the flush suit, and category 4
      is exactly a straight with no five cards of a suit. */
  lemma FlushCategories(cards: seq<Card>)
    requires ValidHand(cards)
    ensures (exists s :: 0 <= s < 4 && SuitCount(cards, s) >= 5) <==>
              (Evaluate(cards).category == 8 || Evaluate(cards).category == 5)
    ensures Evaluate(cards).category == 8 <==>
              exists s :: 0 <= s < 4 && SuitCount(cards, s) >= 5 && StraightHigh(FlushRanks(cards, s)).Some?
    ensures Evaluate(cards).category == 4 <==>
              (forall s :: 0 <= s < 4 ==> SuitCount(cards, s) < 5) && StraightHigh(RankSet(cards)).Some?
  {
    var v := Evaluate(cards);
    match FlushSuit(cards)
    case Some(fs) =>
      assert v == FlushValue(cards, fs);
      forall s | 0 <= s < 4 && SuitCount(cards, s) >= 5 ensures s == fs {
        if s != fs {
          SuitUnique(cards, fs, s);
        }
      }
    case None =>
      assert v == NoFlushValue(cards);
      if StraightHigh(RankSet(cards)).None? {
        HandCountsOf(cards);
        OfAKindCategory(RankCounts(cards));
      }
  }

  /** A plain flush packs the five highest ranks of the flush suit, highest first. */
  lemma FlushPacking(cards: seq<Card>)
    requires ValidHand(cards) && Evaluate(cards).category == 5
    ensures FlushSuit(cards).Some?
    ensures var fr := FlushRanks(cards, FlushSuit(cards).value);
            var ranks := Evaluate(cards).ranks;
            |ranks| == 5 && StrictDesc(ranks) &&
            (forall i :: 0 <= i < 5 ==> ranks[i] in fr) &&
            (forall r :: r in fr && r !in ranks ==> r < ranks[4])
  {
    FlushOnlyFromSuit(cards);
    FlushTopFive(cards, FlushSuit(cards).value);
  }

  lemma FlushOnlyFromSuit(cards: seq<Card>)
    requires ValidHand(cards)
    ensures Evaluate(cards).category == 5 ==> FlushSuit(cards).Some?
    ensures FlushSuit(cards).Some? ==> Evaluate(cards) == FlushValue(cards, FlushSuit(cards).value)
  {
    if FlushSuit(cards).None? && StraightHigh(RankSet(cards)).None? {
      HandCountsOf(cards);
      OfAKindCategory(RankCounts(cards));
    }
  }

  lemma FlushTopFive(cards: seq<Card>, fs: int)
    requires Distinct(cards) && SuitCount(cards, fs) >= 5 && FlushValue(cards, fs).category == 5
    ensures var fr := FlushRanks(cards, fs);
            var ranks := FlushValue(cards, fs).ranks;
            |ranks| == 5 && StrictDesc(ranks) &&
            (forall i :: 0 <= i < 5 ==> ranks[i] in fr) &&
            (forall r :: r in fr && r !in ranks ==> r < ranks[4])
  {
    var fr := FlushRanks(cards, fs);
    FlushRanksSorted(cards, fs);
    TopOfDesc(fr, 5);
    var top := Ranked(fr)[..5];
    assert FlushValue(cards, fs).ranks == top;
    forall i | 0 <= i < 5 ensures top[i] in fr {
      RankedAt(fr, i);
    }
    forall r | r in fr && r !in top ensures r < top[4] {
      assert 0 <= r <= 12;
    }
  }

  /** Every member of `S` missing from the first `n` of `Ranked(S)` is below them. */
  lemma TopOfDesc(S: set<int>, n: nat)
    requires 1 <= n <= |Ranked(S)|
    ensures StrictDesc(Ranked(S)[..n])
    ensures forall r :: r in S && 0 <= r <= 12 && r !in Ranked(S)[..n] ==> r < Ranked(S)[n - 1]
  {
    var d := Ranked(S);
    DescMembers(S, 0, 12);
    forall r | r in S && 0 <= r <= 12 && r !in d[..n] ensures r < d[n - 1] {
      var k :| 0 <= k < |d| && d[k] == r;
      InPrefix(d, n, k);
      assert d[n - 1] > d[k];
    }
  }

  lemma InPrefix(d: seq<int>, n: nat, k: nat)
    requires n <= |d| && k < |d|
    ensures k < n ==> d[k] in d[..n]
  {
    if k < n {
      assert d[..n][k] == d[k];
    }
  }

  // =====================================================================
  // Multiplicities and kickers

  /** `ks` are the `n` highest ranks present in `counts` outside `exclude`,
      strictly descending. */
  predicate TopOthers(counts: seq<int>, exclude: set<int>, ks: seq<int>, n: nat)
    requires |counts| == 13
  {
    1 <= n && |ks| == n && StrictDesc(ks) &&
    (forall i :: 0 <= i < n ==> 0 <= ks[i] < 13 && counts[ks[i]] > 0 && ks[i] !in exclude) &&
    (forall r :: 0 <= r < 13 && counts[r] > 0 && r !in exclude && r !in ks ==> r < ks[n - 1])
  }

  lemma KickersSpec(counts: seq<int>, exclude: set<int>, n: nat)
    requires |counts| == 13 && 1 <= n <= |Ranked(PresentOf(counts) - exclude)|
    ensures TopOthers(counts, exclude, Kickers(counts, exclude, n), n)
  {
    var S := PresentOf(counts) - exclude;
    TopOfDesc(S, n);
    var ks := Kickers(counts, exclude, n);
    forall i | 0 <= i < n ensures 0 <= ks[i] < 13 && counts[ks[i]] > 0 && ks[i] !in exclude {
      RankedAt(S, i);
    }
  }

  /** When the kicker loop finds nothing it keeps its default 0; otherwise
      it finds the highest rank present outside `exclude`. */
  lemma SingleKicker(counts: seq<int>, exclude: set<int>)
    requires |counts| == 13
    ensures var k := FirstOr(Kickers(counts, exclude, 1), 0);
            TopOthers(counts, exclude, [k], 1) ||
            (k == 0 && forall r :: 0 <= r < 13 && counts[r] > 0 ==> r in exclude)
  {
    var S := PresentOf(counts) - exclude;
    DescMembers(S, 0, 12);
    if |Ranked(S)| > 0 {
      KickersSpec(counts, exclude, 1);
      assert Kickers(counts, exclude, 1) == [FirstOr(Kickers(counts, exclude, 1), 0)];
    } else {
      forall r | 0 <= r < 13 && counts[r] > 0 ensures r in exclude {
        assert r !in Ranked(S);
      }
    }
  }

  /** Every later entry of a strictly descending list is at most its second. */
  lemma BelowSecond(xs: seq<int>, r: int)
    requires StrictDesc(xs) && r in xs && r != xs[0]
    ensures |xs| >= 2 && r <= xs[1]
  {
    var k :| 0 <= k < |xs| && xs[k] == r;
    assert k >= 1;
    if k > 1 {
      assert xs[1] > xs[k];
    }
  }

  lemma BelowFirst(xs: seq<int>, r: int)
    requires StrictDesc(xs) && r in xs
    ensures r <= xs[0]
  {
    var k :| 0 <= k < |xs| && xs[k] == r;
    if k > 0 {
      assert xs[0] > xs[k];
    }
  }

  /** `r` is the highest rank whose count is `k`. */
  predicate HighestWithCount(counts: seq<int>, k: int, r: int)
    requires |counts| == 13
  {
    0 <= r < 13 && counts[r] == k && forall j :: 0 <= j < 13 && counts[j] == k ==> j <= r
  }

  lemma WithCountFirst(counts: seq<int>, k: int)
    requires |counts| == 13 && |WithCount(counts, k)| > 0
    ensures HighestWithCount(counts, k, WithCount(counts, k)[0])
  {
    WithCountMembers(counts, k);
    var w := WithCount(counts, k);
    forall j | 0 <= j < 13 && counts[j] == k ensures j <= w[0] {
      assert j in w;
    }
  }

  /** Quads: the highest rank held four times, then the highest other rank
      present (0 if there were none). */
  lemma QuadsShape(counts: seq<int>)
    requires HandCounts(counts) && OfAKind(counts).category == 7
    ensures var v := OfAKind(counts);
            |v.ranks| == 2 && HighestWithCount(counts, 4, v.ranks[0]) &&
            v.ranks[1] == FirstOr(Kickers(counts, {v.ranks[0]}, 1), 0) &&
            TopOthers(counts, {v.ranks[0]}, [v.ranks[1]], 1)
  {
    OfAKindCategory(counts);
    QuadsValue(counts);
    QuadsParts(counts);
  }

  lemma QuadsParts(counts: seq<int>)
    requires HandCounts(counts) && |WithCount(counts, 4)| > 0
    ensures var q := WithCount(counts, 4)[0];
            HighestWithCount(counts, 4, q) && TopOthers(counts, {q}, [FirstOr(Kickers(counts, {q}, 1), 0)], 1)
  {
    var q := WithCount(counts, 4);
    WithCountFirst(counts, 4);
    OtherPresent(counts, q[0]);
    SingleKicker(counts, {q[0]});
  }

  /** Seven cards with four of one rank hold some other rank. */
  lemma OtherPresent(counts: seq<int>, x: int)
    requires HandCounts(counts) && 0 <= x < 13 && counts[x] == 4
    ensures exists r :: 0 <= r < 13 && counts[r] > 0 && r !in {x}
  {
    if forall r :: 0 <= r < 13 && r != x ==> counts[r] == 0 {
      SumOnly(counts, x, 0);
    }
  }

  lemma {:induction false} SumOnly(counts: seq<int>, x: int, lo: nat)
    requires |counts| == 13 && lo <= 13
    requires forall r :: 0 <= r < 13 && r != x ==> counts[r] == 0
    ensures Sum(counts, lo) == if lo <= x < 13 then counts[x] else 0
    decreases 13 - lo
  {
    if lo < 13 {
      SumOnly(counts, x, lo + 1);
    }
  }

  /** Full-house ranks: the highest trip rank, then the highest other rank
      held at least twice (a second trip or a pair). */
  predicate FullHouseRanks(counts: seq<int>, ranks: seq<int>)
    requires |counts| == 13
  {
    |ranks| == 2 && HighestWithCount(counts, 3, ranks[0]) &&
    ranks[1] != ranks[0] && 0 <= ranks[1] < 13 && counts[ranks[1]] >= 2 &&
    forall r :: 0 <= r < 13 && r != ranks[0] && counts[r] >= 2 ==> r <= ranks[1]
  }

  lemma FullHouseShape(counts: seq<int>)
    requires HandCounts(counts) && OfAKind(counts).category == 6
    ensures FullHouseRanks(counts, OfAKind(counts).ranks)
  {
    OfAKindCategory(counts);
    FullHouseValue(counts);
    FullHouseSecondMax(counts);
  }

  lemma FullHouseSecondMax(counts: seq<int>)
    requires |counts| == 13 && (forall r :: 0 <= r < 13 ==> 0 <= counts[r] <= 4) && |WithCount(counts, 4)| == 0 && |WithCount(counts, 3)| > 0
    requires |WithCount(counts, 3)| >= 2 || |WithCount(counts, 2)| > 0
    ensures FullHouseRanks(counts, [WithCount(counts, 3)[0], FullHouseSecond(WithCount(counts, 3), WithCount(counts, 2))])
  {
    WithCountFirst(counts, 3);
    SecondMember(counts);
    SecondIsMax(counts);
  }

  lemma SecondMember(counts: seq<int>)
    requires |counts| == 13 && |WithCount(counts, 3)| > 0
    requires |WithCount(counts, 3)| >= 2 || |WithCount(counts, 2)| > 0
    ensures var trips, pairs := WithCount(counts, 3), WithCount(counts, 2);
            var s := FullHouseSecond(trips, pairs);
            0 <= s < 13 && counts[s] >= 2 && s != trips[0]
  {
    var trips := WithCount(counts, 3);
    var pairs := WithCount(counts, 2);
    WithCountAt(counts, 3, 0);
    if |trips| >= 2 {
      WithCountAt(counts, 3, 1);
      WithCountSorted(counts, 3);
      assert trips[0] > trips[1];
    }
    if |pairs| > 0 {
      WithCountAt(counts, 2, 0);
    }
  }

  lemma SecondIsMax(counts: seq<int>)
    requires |counts| == 13 && (forall r :: 0 <= r < 13 ==> 0 <= counts[r] <= 4) && |WithCount(counts, 4)| == 0 && |WithCount(counts, 3)| > 0
    requires |WithCount(counts, 3)| >= 2 || |WithCount(counts, 2)| > 0
    ensures var trips, pairs := WithCount(counts, 3), WithCount(counts, 2);
            forall r :: 0 <= r < 13 && r != trips[0] && counts[r] >= 2 ==> r <= FullHouseSecond(trips, pairs)
  {
    WithCountMembers(counts, 3);
    WithCountMembers(counts, 2);
    CountsOf(counts, 4);
    SecondAbove(counts, WithCount(counts, 3), WithCount(counts, 2));
  }

  lemma SecondAbove(counts: seq<int>, trips: seq<int>, pairs: seq<int>)
    requires |counts| == 13 && forall r :: 0 <= r < 13 ==> 0 <= counts[r] <= 3
    requires StrictDesc(trips) && StrictDesc(pairs)
    requires forall r :: r in trips <==> 0 <= r < 13 && counts[r] == 3
    requires forall r :: r in pairs <==> 0 <= r < 13 && counts[r] == 2
    requires |trips| > 0 && (|trips| >= 2 || |pairs| > 0)
    ensures forall r :: 0 <= r < 13 && r != trips[0] && counts[r] >= 2 ==> r <= FullHouseSecond(trips, pairs)
  {
    forall r | 0 <= r < 13 && r != trips[0] && counts[r] >= 2 ensures r <= FullHouseSecond(trips, pairs) {
      if counts[r] == 3 {
        BelowSecond(trips, r);
      } else {
        BelowFirst(pairs, r);
      }
    }
  }

  /** The source's guard `pairs[0] > trips[1]` can never fire: seven cards
      holding two trips have no room for a pair, so the full-house second
      rank is always `trips[1]` or `pairs[0]`. */
  lemma FullHouseGuardUnreachable(counts: seq<int>)
    requires HandCounts(counts) && |WithCount(counts, 3)| >= 2
    ensures |WithCount(counts, 2)| == 0
  {
    var trips := WithCount(counts, 3);
    WithCountMembers(counts, 3);
    WithCountMembers(counts, 2);
    assert trips[0] in trips && trips[1] in trips;
    if |WithCount(counts, 2)| > 0 {
      var p := WithCount(counts, 2)[0];
      assert p in WithCount(counts, 2);
      SumOfThree(counts, trips[0], trips[1], p, 0);
      assert false;
    }
  }

  lemma {:induction false} SumOfThree(counts: seq<int>, a: int, b: int, c: int, lo: nat)
    requires |counts| == 13 && lo <= 13 && forall r :: 0 <= r < 13 ==> counts[r] >= 0
    requires 0 <= a < 13 && 0 <= b < 13 && 0 <= c < 13 && a != b && b != c && a != c
    ensures Sum(counts, lo) >= (if lo <= a then counts[a] else 0) + (if lo <= b then counts[b] else 0)
                               + (if lo <= c then counts[c] else 0)
    decreases 13 - lo
  {
    if lo < 13 {
      SumOfThree(counts, a, b, c, lo + 1);
    }
  }

  /** Trips: the trip rank, then the two highest other ranks. */
  lemma TripsShape(counts: seq<int>)
    requires HandCounts(counts) && OfAKind(counts).category == 3
    ensures var v := OfAKind(counts);
            |v.ranks| == 3 && HighestWithCount(counts, 3, v.ranks[0]) &&
            TopOthers(counts, {v.ranks[0]}, v.ranks[1..], 2)
  {
    OfAKindCategory(counts);
    var t := WithCount(counts, 3)[0];
    TripsValue(counts);
    TripsKickers(counts);
    WithCountFirst(counts, 3);
    KickersSpec(counts, {t}, 2);
    assert OfAKind(counts).ranks[1..] == Kickers(counts, {t}, 2);
  }

  /** Two pair ranks: the two highest pair ranks, then the highest other
      rank present, or 0 when every present rank is one of the pairs. */
  predicate TwoPairRanks(counts: seq<int>, ranks: seq<int>)
    requires |counts| == 13
  {
    |ranks| == 3 && HighestWithCount(counts, 2, ranks[0]) &&
    0 <= ranks[1] < 13 && counts[ranks[1]] == 2 && ranks[1] < ranks[0] &&
    (forall r :: 0 <= r < 13 && counts[r] == 2 && r != ranks[0] ==> r <= ranks[1]) &&
    (TopOthers(counts, {ranks[0], ranks[1]}, [ranks[2]], 1) ||
     (ranks[2] == 0 && forall r :: 0 <= r < 13 && counts[r] > 0 ==> r in {ranks[0], ranks[1]}))
  }

  lemma TwoPairShape(counts: seq<int>)
    requires HandCounts(counts) && OfAKind(counts).category == 2
    ensures TwoPairRanks(counts, OfAKind(counts).ranks)
  {
    OfAKindCategory(counts);
    TwoPairValue(counts);
    TwoPairFacts(counts);
  }

  lemma TwoPairFacts(counts: seq<int>)
    requires |counts| == 13 && |WithCount(counts, 2)| >= 2
    ensures var p := WithCount(counts, 2);
            TwoPairRanks(counts, [p[0], p[1], FirstOr(Kickers(counts, {p[0], p[1]}, 1), 0)])
  {
    SecondPair(counts);
    var pairs := WithCount(counts, 2);
    SingleKicker(counts, {pairs[0], pairs[1]});
  }

  lemma SecondPair(counts: seq<int>)
    requires |counts| == 13 && |WithCount(counts, 2)| >= 2
    ensures var p := WithCount(counts, 2);
            HighestWithCount(counts, 2, p[0]) && 0 <= p[1] < 13 && counts[p[1]] == 2 && p[1] < p[0] &&
            forall r :: 0 <= r < 13 && counts[r] == 2 && r != p[0] ==> r <= p[1]
  {
    var pairs := WithCount(counts, 2);
    WithCountFirst(counts, 2);
    WithCountMembers(counts, 2);
    assert pairs[1] in pairs;
    forall r | 0 <= r < 13 && counts[r] == 2 && r != pairs[0] ensures r <= pairs[1] {
      BelowSecond(pairs, r);
    }
  }

  /** One pair: the pair rank, then the three highest other ranks. */
  lemma OnePairShape(counts: seq<int>)
    requires HandCounts(counts) && OfAKind(counts).category == 1
    ensures var v := OfAKind(counts);
            |v.ranks| == 4 && HighestWithCount(counts, 2, v.ranks[0]) &&
            TopOthers(counts, {v.ranks[0]}, v.ranks[1..], 3)
  {
    OfAKindCategory(counts);
    var p := WithCount(counts, 2)[0];
    OnePairValue(counts);
    PairKickers(counts);
    WithCountFirst(counts, 2);
    KickersSpec(counts, {p}, 3);
    assert OfAKind(counts).ranks[1..] == Kickers(counts, {p}, 3);
  }

  /** High card: the five highest ranks, strictly descending. */
  lemma HighCardShape(counts: seq<int>)
    requires HandCounts(counts) && OfAKind(counts).category == 0
    ensures TopOthers(counts, {}, OfAKind(counts).ranks, 5)
  {
    OfAKindCategory(counts);
    HighCardValue(counts);
    HighKickers(counts);
    KickersSpec(counts, {}, 5);
  }

  // =====================================================================
  // Order independence

  /** The value depends only on which cards are held, not on their order. */
  lemma OrderIndependent(a: seq<Card>, b: seq<Card>)
    requires ValidHand(a) && ValidHand(b) && multiset(a) == multiset(b)
    ensures Evaluate(a) == Evaluate(b)
  {
    forall c ensures c in a <==> c in b {
      assert c in a <==> c in multiset(a);
      assert c in b <==> c in multiset(b);
    }
    forall s ensures SuitCards(a, s) == SuitCards(b, s) && FlushRanks(a, s) == FlushRanks(b, s) {
    }
    forall r ensures RankCards(a, r) == RankCards(b, r) {
    }
    assert RankSet(a) == RankSet(b);
    assert RankCounts(a) == RankCounts(b);
    assert FlushSuit(a) == FlushSuit(b);
  }
}
