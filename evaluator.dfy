/** The 7-card hand evaluator of src/fast_evaluator.py.

    `Evaluate` is the reference definition: it says, in terms of the set of
    cards, which category (0 = high card .. 8 = straight flush) and which
    tiebreak ranks a hand gets.  `Score` packs that value as the source does:
    the category at bit 20, then up to five 4-bit rank fields from bit 16 down
    (the fields never overlap, so the source's `|` of shifted fields is the sum
    of base-16 digits).  `EvaluateHand` is the source's loop-and-early-return
    procedure, proved to return `Score(Evaluate(cards))`.
    The source's 13-bit rank masks are modelled as the sets of their set bits:
    `mask |= 1 << r` is `mask + {r}` and `(mask & w) == w` is `w <= mask`. */
module Evaluator {
  import opened Wrappers
  import opened Cards

  predicate Distinct(cards: seq<Card>) {
    forall i, j :: 0 <= i < j < |cards| ==> cards[i] != cards[j]
  }

  /** What `evaluate_hand` expects: seven distinct card ids. */
  predicate ValidHand(cards: seq<Card>) {
    |cards| == 7 && Distinct(cards)
  }

  // =====================================================================
  // Score packing

  datatype HandValue = HandValue(category: int, ranks: seq<int>)

  function Pow16(k: nat): (p: nat)
    ensures p >= 1
  {
    if k == 0 then 1 else 16 * Pow16(k - 1)
  }

  /** The sum of `ranks[j] << (16 - 4*j)` for `i <= j < 5`. */
  function PackFrom(ranks: seq<int>, i: nat): int
    requires i <= 5
    decreases 5 - i
  {
    if i == 5 || i >= |ranks| then 0 else ranks[i] * Pow16(4 - i) + PackFrom(ranks, i + 1)
  }

  /** `(category << 20) | (r0 << 16) | (r1 << 12) | ...` */
  function Score(v: HandValue): int {
    v.category * Pow16(5) + PackFrom(v.ranks, 0)
  }

  /** A value the evaluator can produce: a category 0..8 named in the
      docstring and at most five rank fields, each a rank 0..12. */
  predicate WellFormed(v: HandValue) {
    0 <= v.category <= 8 && |v.ranks| <= 5 &&
    forall i :: 0 <= i < |v.ranks| ==> 0 <= v.ranks[i] <= 12
  }

  /** The six base-16 digits of a score: the category, then the rank
      fields, missing fields being 0. */
  function Digits(v: HandValue): (ds: seq<int>)
    ensures |ds| == 6
  {
    [v.category] + seq(5, i requires 0 <= i < 5 => if i < |v.ranks| then v.ranks[i] else 0)
  }

  /** The number a digit sequence denotes in base 16. */
  function Value(ds: seq<int>): int {
    if ds == [] then 0 else ds[0] * Pow16(|ds| - 1) + Value(ds[1..])
  }

  /** Lexicographic order on digit sequences of equal length. */
  predicate LexLess(a: seq<int>, b: seq<int>)
    requires |a| == |b|
  {
    |a| > 0 && (a[0] < b[0] || (a[0] == b[0] && LexLess(a[1..], b[1..])))
  }

  predicate IsDigits(ds: seq<int>) {
    forall i :: 0 <= i < |ds| ==> 0 <= ds[i] < 16
  }

  lemma MulMono(a: int, b: int, p: nat)
    requires a <= b
    ensures a * p <= b * p
  {
  }

  lemma {:induction false} ValueBound(ds: seq<int>)
    requires IsDigits(ds)
    ensures 0 <= Value(ds) < Pow16(|ds|)
  {
    if ds != [] {
      var p := Pow16(|ds| - 1);
      assert IsDigits(ds[1..]);
      ValueBound(ds[1..]);
      MulMono(0, ds[0], p);
      MulMono(ds[0], 15, p);
      assert Pow16(|ds|) == 16 * p;
    }
  }

  /** Comparing the numbers is comparing the digit sequences lexicographically. */
  lemma {:induction false} ValueOrder(a: seq<int>, b: seq<int>)
    requires |a| == |b| && IsDigits(a) && IsDigits(b)
    ensures Value(a) < Value(b) <==> LexLess(a, b)
    ensures Value(a) == Value(b) <==> a == b
  {
    if a != [] {
      var n := |a| - 1;
      assert IsDigits(a[1..]) && IsDigits(b[1..]);
      ValueOrder(a[1..], b[1..]);
      ValueBound(a[1..]);
      ValueBound(b[1..]);
      var p := Pow16(n);
      if a[0] < b[0] {
        MulMono(a[0] + 1, b[0], p);
        assert (a[0] + 1) * p == a[0] * p + p;
      } else if a[0] > b[0] {
        MulMono(b[0] + 1, a[0], p);
        assert (b[0] + 1) * p == b[0] * p + p;
      } else {
        assert a == b <==> a[1..] == b[1..];
      }
    }
  }

  lemma {:induction false} PackFromDigits(v: HandValue, i: nat)
    requires i <= 5
    ensures PackFrom(v.ranks, i) == Value(Digits(v)[1 + i..])
    decreases 5 - i
  {
    var ds := Digits(v)[1 + i..];
    if i < 5 {
      PackFromDigits(v, i + 1);
      assert ds[1..] == Digits(v)[1 + (i + 1)..];
      assert |ds| - 1 == 4 - i;
    } else {
      assert ds == [];
    }
  }

  /** The score is the base-16 number whose digits are `Digits(v)`. */
  lemma ScoreIsValue(v: HandValue)
    ensures Score(v) == Value(Digits(v))
  {
    PackFromDigits(v, 0);
    assert Digits(v)[1..] == Digits(v)[1 + 0..];
  }

  /** The integer order of scores is exactly the lexicographic order on
      (category, rank fields): integer comparison alone decides every
      ranking, kickers included, and equal scores mean equal values. */
  lemma {:induction false} ScoreOrder(v: HandValue, w: HandValue)
    requires WellFormed(v) && WellFormed(w)
    ensures Score(v) < Score(w) <==> LexLess(Digits(v), Digits(w))
    ensures Score(v) == Score(w) <==> Digits(v) == Digits(w)
  {
    ScoreIsValue(v);
    ScoreIsValue(w);
    ValueOrder(Digits(v), Digits(w));
  }

  /** `score >> 20` is the category and every score lies below `9 << 20`. */
  lemma {:induction false} ScoreBounds(v: HandValue)
    requires WellFormed(v)
    ensures 0 <= Score(v) < 9 * Pow16(5)
    ensures Score(v) / Pow16(5) == v.category
  {
    ScoreIsValue(v);
    var rest := Digits(v)[1..];
    assert IsDigits(rest);
    ValueBound(rest);
    assert Value(Digits(v)) == v.category * Pow16(5) + Value(rest);
    LeadingDigit(v.category, Value(rest), Pow16(5));
  }

  /** A leading digit `c` below 9 over a remainder below `p`. */
  lemma LeadingDigit(c: int, rest: int, p: int)
    requires 0 <= c <= 8 && 0 <= rest < p
    ensures 0 <= c * p + rest < 9 * p
    ensures (c * p + rest) / p == c
  {
    MulMono(c + 1, 9, p);
    assert (c + 1) * p == c * p + p;
    DivUnique(c * p + rest, p, c);
  }

  /** The quotient is the one `q` with `q * p <= x < q * p + p`. */
  lemma DivUnique(x: int, p: int, c: int)
    requires p > 0 && c * p <= x < c * p + p
    ensures x / p == c
  {
    var q := x / p;
    assert q * p <= x < q * p + p;
    if q < c {
      MulStrict(q, c, p);
    } else if q > c {
      MulStrict(c, q, p);
    }
  }

  lemma MulStrict(a: int, b: int, p: nat)
    requires a < b
    ensures a * p + p <= b * p
  {
    MulMono(a + 1, b, p);
    assert (a + 1) * p == a * p + p;
  }

  // =====================================================================
  // Cardinality helpers

  lemma SubsetCard<T>(a: set<T>, b: set<T>)
    requires a <= b
    ensures |a| <= |b|
  {
    assert b == a + (b - a);
  }

  /** The set of cards in a sequence. */
  function CardSet(xs: seq<Card>): set<Card> {
    set c | c in xs
  }

  lemma {:induction false} SeqSetCard(xs: seq<Card>)
    ensures |CardSet(xs)| <= |xs|
  {
    if xs != [] {
      var ys := xs[..|xs| - 1];
      var x := xs[|xs| - 1];
      SeqSetCard(ys);
      assert xs == ys + [x];
      assert CardSet(xs) == CardSet(ys) + {x};
      if x in CardSet(ys) {
        assert CardSet(ys) + {x} == CardSet(ys);
      } else {
        assert |CardSet(ys) + {x}| == |CardSet(ys)| + 1;
      }
    }
  }

  // =====================================================================
  // Counting cards by suit and by rank

  function SuitCards(cards: seq<Card>, s: int): set<Card> {
    set c | c in cards && Suit(c) == s
  }

  function RankCards(cards: seq<Card>, r: int): set<Card> {
    set c | c in cards && Rank(c) == r
  }

  function SuitCount(cards: seq<Card>, s: int): nat { |SuitCards(cards, s)| }

  function RankCount(cards: seq<Card>, r: int): nat { |RankCards(cards, r)| }

  lemma SuitCardsSnoc(cards: seq<Card>, i: nat, s: int)
    requires i < |cards| && Distinct(cards)
    ensures SuitCount(cards[..i + 1], s) == SuitCount(cards[..i], s) + (if Suit(cards[i]) == s then 1 else 0)
  {
    var x := cards[i];
    assert x !in cards[..i];
    if Suit(x) == s {
      assert SuitCards(cards[..i + 1], s) == SuitCards(cards[..i], s) + {x};
    } else {
      assert SuitCards(cards[..i + 1], s) == SuitCards(cards[..i], s);
    }
  }

  lemma RankCardsSnoc(cards: seq<Card>, i: nat, r: int)
    requires i < |cards| && Distinct(cards)
    ensures RankCount(cards[..i + 1], r) == RankCount(cards[..i], r) + (if Rank(cards[i]) == r then 1 else 0)
  {
    var x := cards[i];
    assert x !in cards[..i];
    if Rank(x) == r {
      assert RankCards(cards[..i + 1], r) == RankCards(cards[..i], r) + {x};
    } else {
      assert RankCards(cards[..i + 1], r) == RankCards(cards[..i], r);
    }
  }

  /** Seven cards cannot hold five of two different suits. */
  lemma SuitUnique(cards: seq<Card>, s: int, t: int)
    requires |cards| == 7 && s != t && SuitCount(cards, s) >= 5
    ensures SuitCount(cards, t) < 5
  {
    var a := SuitCards(cards, s);
    var b := SuitCards(cards, t);
    var all := CardSet(cards);
    SeqSetCard(cards);
    assert |all| <= 7;
    assert a * b == {};
    assert |a + b| == |a| + |b|;
    SubsetCard(a + b, all);
    assert |b| <= 2;
  }

  /** There are only four cards of each rank. */
  lemma RankCountAtMost4(cards: seq<Card>, r: int)
    ensures RankCount(cards, r) <= 4
  {
    if 0 <= r < 13 {
      forall c | c in RankCards(cards, r) ensures c in {r, r + 13, r + 26, r + 39} {
        assert c == 13 * (c / 13) + r;
      }
      SubsetCard(RankCards(cards, r), {r, r + 13, r + 26, r + 39});
    } else {
      assert RankCards(cards, r) == {};
    }
  }

  // =====================================================================
  // Rank sets and descending rank lists

  /** The elements of `S` within [lo, hi], highest first. */
  function Desc(S: set<int>, lo: int, hi: int): seq<int>
    decreases if hi < lo then 0 else hi - lo + 1
  {
    if hi < lo then [] else Desc(S, lo + 1, hi) + (if lo in S then [lo] else [])
  }

  /** All ranks of `S`, highest first. */
  function Ranked(S: set<int>): seq<int> { Desc(S, 0, 12) }

  predicate StrictDesc(xs: seq<int>) {
    forall i, j :: 0 <= i < j < |xs| ==> xs[i] > xs[j]
  }

  lemma {:induction false} DescMembers(S: set<int>, lo: int, hi: int)
    ensures forall x :: x in Desc(S, lo, hi) <==> x in S && lo <= x <= hi
    ensures StrictDesc(Desc(S, lo, hi))
    decreases if hi < lo then 0 else hi - lo + 1
  {
    if lo <= hi {
      DescMembers(S, lo + 1, hi);
      var d := Desc(S, lo + 1, hi);
      var r := Desc(S, lo, hi);
      assert r == d + (if lo in S then [lo] else []);
      forall i, j | 0 <= i < j < |r| ensures r[i] > r[j] {
        if j < |d| {
          assert r[i] == d[i] && r[j] == d[j];
        } else {
          assert r[i] == d[i] && d[i] in d;
        }
      }
    }
  }

  /** Entry `i` of `Ranked(S)` is a rank of `S`. */
  lemma RankedAt(S: set<int>, i: nat)
    requires i < |Ranked(S)|
    ensures Ranked(S)[i] in S && 0 <= Ranked(S)[i] <= 12
  {
    DescMembers(S, 0, 12);
    assert Ranked(S)[i] in Ranked(S);
  }

  /** `Desc(S, lo, hi)` is `Desc(S, m, hi)` followed by `Desc(S, lo, m - 1)`. */
  lemma {:induction false} DescSplit(S: set<int>, lo: int, m: int, hi: int)
    requires lo <= m <= hi + 1
    ensures Desc(S, lo, hi) == Desc(S, m, hi) + Desc(S, lo, m - 1)
    decreases m - lo
  {
    if lo < m {
      DescSplit(S, lo + 1, m, hi);
    }
  }

  /** `Desc` only looks at the part of the set inside [lo, hi]. */
  lemma {:induction false} DescCongruent(S: set<int>, T: set<int>, lo: int, hi: int)
    requires forall x :: lo <= x <= hi ==> (x in S <==> x in T)
    ensures Desc(S, lo, hi) == Desc(T, lo, hi)
    decreases if hi < lo then 0 else hi - lo + 1
  {
    if lo <= hi {
      DescCongruent(S, T, lo + 1, hi);
    }
  }

  /** No list has its elements in an empty range except the empty one. */
  lemma NoRoom(xs: seq<int>, lo: int, hi: int)
    ensures hi < lo && (forall i :: 0 <= i < |xs| ==> lo <= xs[i] <= hi) ==> xs == []
  {
    if |xs| > 0 {
      var first := xs[0];
    }
  }

  lemma LastIsLeast(xs: seq<int>)
    requires StrictDesc(xs) && |xs| > 0
    ensures forall i :: 0 <= i < |xs| ==> xs[|xs| - 1] <= xs[i]
  {
    forall i | 0 <= i < |xs| ensures xs[|xs| - 1] <= xs[i] {
      if i < |xs| - 1 {
        assert xs[i] > xs[|xs| - 1];
      }
    }
  }

  /** A strictly descending list within [lo, hi] is the `Desc` of any set
      that agrees with it on [lo, hi]. */
  lemma {:induction false} StrictDescIsDesc(xs: seq<int>, S: set<int>, lo: int, hi: int)
    requires StrictDesc(xs)
    requires forall i :: 0 <= i < |xs| ==> lo <= xs[i] <= hi
    requires forall y :: lo <= y <= hi ==> (y in S <==> y in xs)
    ensures xs == Desc(S, lo, hi)
    decreases if hi < lo then 0 else hi - lo + 1
  {
    if hi < lo {
      NoRoom(xs, lo, hi);
    } else if lo in S {
      var ys := xs[..|xs| - 1];
      LowIsLast(xs, S, lo, hi);
      StrictDescIsDesc(ys, S, lo + 1, hi);
    } else {
      forall i | 0 <= i < |xs| ensures lo + 1 <= xs[i] <= hi {
        assert xs[i] in xs;
      }
      StrictDescIsDesc(xs, S, lo + 1, hi);
    }
  }

  /** When `lo` is in the set, it is the last element, and what comes before
      it covers [lo + 1, hi]. */
  lemma LowIsLast(xs: seq<int>, S: set<int>, lo: int, hi: int)
    requires StrictDesc(xs) && lo <= hi && lo in S
    requires forall i :: 0 <= i < |xs| ==> lo <= xs[i] <= hi
    requires forall y :: lo <= y <= hi ==> (y in S <==> y in xs)
    ensures |xs| > 0 && xs == xs[..|xs| - 1] + [lo]
    ensures StrictDesc(xs[..|xs| - 1])
    ensures forall i :: 0 <= i < |xs| - 1 ==> lo + 1 <= xs[i] <= hi
    ensures forall y :: lo + 1 <= y <= hi ==> (y in S <==> y in xs[..|xs| - 1])
  {
    var n := |xs| - 1;
    var k :| 0 <= k < |xs| && xs[k] == lo;
    LastIsLeast(xs);
    assert xs[n] <= xs[k];
    var ys := xs[..n];
    assert xs == ys + [lo];
    forall i | 0 <= i < n ensures lo + 1 <= ys[i] <= hi {
      assert xs[i] > xs[n];
    }
  }

  function FirstOr(xs: seq<int>, d: int): int {
    if |xs| > 0 then xs[0] else d
  }

  function Take(xs: seq<int>, n: nat): (r: seq<int>)
    ensures |r| == if |xs| <= n then |xs| else n
    ensures r == xs[..|r|]
  {
    if |xs| <= n then xs else xs[..n]
  }

  // =====================================================================
  // `flush_ranks.sort(reverse=True)`

  function Insert(x: int, xs: seq<int>): seq<int> {
    if xs == [] || x >= xs[0] then [x] + xs else [xs[0]] + Insert(x, xs[1..])
  }

  /** Python's `sort(reverse=True)` on a list of ints (an insertion sort). */
  function SortDesc(xs: seq<int>): seq<int> {
    if xs == [] then [] else Insert(xs[0], SortDesc(xs[1..]))
  }

  lemma {:induction false} InsertFacts(x: int, xs: seq<int>)
    requires StrictDesc(xs) && x !in xs
    ensures StrictDesc(Insert(x, xs))
    ensures forall y :: y in Insert(x, xs) <==> y == x || y in xs
    ensures |Insert(x, xs)| == |xs| + 1
  {
    if xs == [] || x >= xs[0] {
      forall k | 0 <= k < |xs| ensures xs[k] < x {
        assert x != xs[0];
        if k > 0 {
          assert xs[0] > xs[k];
        }
      }
      ConsDesc(x, xs);
    } else {
      var tail := xs[1..];
      assert xs == [xs[0]] + tail;
      DescTail(xs);
      InsertFacts(x, tail);
      var r := Insert(x, tail);
      forall k | 0 <= k < |r| ensures r[k] < xs[0] {
        assert r[k] in r;
        if r[k] != x {
          var m :| 0 <= m < |tail| && tail[m] == r[k];
          assert xs[m + 1] == r[k];
        }
      }
      ConsDesc(xs[0], r);
    }
  }

  lemma DescTail(xs: seq<int>)
    requires StrictDesc(xs) && |xs| > 0
    ensures StrictDesc(xs[1..])
  {
    forall i, j | 0 <= i < j < |xs| - 1 ensures xs[1..][i] > xs[1..][j] {
      assert xs[i + 1] > xs[j + 1];
    }
  }

  /** A head above every element of a strictly descending list keeps it so. */
  lemma ConsDesc(h: int, r: seq<int>)
    requires StrictDesc(r) && forall k :: 0 <= k < |r| ==> r[k] < h
    ensures StrictDesc([h] + r)
  {
    var res := [h] + r;
    forall i, j | 0 <= i < j < |res| ensures res[i] > res[j] {
      if i == 0 {
        assert res[j] == r[j - 1];
      } else {
        assert res[i] == r[i - 1] && res[j] == r[j - 1];
      }
    }
  }

  /** No value occurs twice. */
  predicate NoRepeats(xs: seq<int>) {
    forall i, j :: 0 <= i < j < |xs| ==> xs[i] != xs[j]
  }

  lemma NoRepeatsSnoc(xs: seq<int>, x: int)
    requires NoRepeats(xs) && x !in xs
    ensures NoRepeats(xs + [x])
  {
    var r := xs + [x];
    forall k, m | 0 <= k < m < |r| ensures r[k] != r[m] {
      assert r[k] == xs[k];
      if m < |xs| {
        assert r[m] == xs[m];
      } else {
        assert r[k] in xs;
      }
    }
  }

  lemma {:induction false} SortDescFacts(xs: seq<int>)
    requires NoRepeats(xs)
    ensures StrictDesc(SortDesc(xs))
    ensures forall y :: y in SortDesc(xs) <==> y in xs
    ensures |SortDesc(xs)| == |xs|
  {
    if xs != [] {
      var tail := xs[1..];
      assert xs == [xs[0]] + tail;
      forall i, j | 0 <= i < j < |tail| ensures tail[i] != tail[j] {
        assert xs[i + 1] != xs[j + 1];
      }
      SortDescFacts(tail);
      forall k | 0 <= k < |tail| ensures tail[k] != xs[0] {
        assert xs[k + 1] != xs[0];
      }
      InsertFacts(xs[0], SortDesc(tail));
    }
  }

  /** Sorting distinct ranks descending lists the rank set highest first. */
  lemma SortedRanks(xs: seq<int>, S: set<int>)
    requires NoRepeats(xs)
    requires forall i :: 0 <= i < |xs| ==> 0 <= xs[i] <= 12
    requires forall y :: y in S <==> y in xs
    ensures SortDesc(xs) == Ranked(S)
    ensures |SortDesc(xs)| == |xs|
  {
    SortDescFacts(xs);
    var ys := SortDesc(xs);
    forall i | 0 <= i < |ys| ensures 0 <= ys[i] <= 12 {
      assert ys[i] in xs;
    }
    StrictDescIsDesc(ys, S, 0, 12);
  }

  // =====================================================================
  // Straights: nine 5-rank windows from Ace-high down to 6-high, then the wheel

  function Window(i: int): set<int> { {i - 4, i - 3, i - 2, i - 1, i} }

  const Wheel: set<int> := {12, 0, 1, 2, 3}

  function ScanFrom(mask: set<int>, i: int): Option<int>
    decreases i
  {
    if i < 4 then (if Wheel <= mask then Some(3) else None)
    else if Window(i) <= mask then Some(i)
    else ScanFrom(mask, i - 1)
  }

  /** The high rank of the best straight inside `mask`; the wheel counts as
      5-high (rank 3). */
  function StraightHigh(mask: set<int>): Option<int> { ScanFrom(mask, 12) }

  // =====================================================================
  // Flush

  /** The suit holding five or more of the cards, if any. */
  function FlushSuit(cards: seq<Card>): Option<int> {
    if SuitCount(cards, 0) >= 5 then Some(0)
    else if SuitCount(cards, 1) >= 5 then Some(1)
    else if SuitCount(cards, 2) >= 5 then Some(2)
    else if SuitCount(cards, 3) >= 5 then Some(3)
    else None
  }

  /** The ranks of the cards of suit `s`: the bits of `flush_mask`. */
  function FlushRanks(cards: seq<Card>, s: int): set<int> {
    set r | 0 <= r < 13 && CardOf(r, s) in cards
  }

  /** The id of the card of rank `r` and suit `s`. */
  function CardOf(r: int, s: int): int { r + 13 * s }

  /** The ranks present among all cards: the bits of `rank_mask`. */
  function RankSet(cards: seq<Card>): set<int> {
    set c | c in cards :: Rank(c) as int
  }

  /** `[r for r, s in zip(ranks, suits) if s == flush_suit]` before sorting. */
  function FlushList(cards: seq<Card>, s: int): seq<int>
    decreases |cards|
  {
    if cards == [] then []
    else
      var last := cards[|cards| - 1];
      FlushList(cards[..|cards| - 1], s) + (if Suit(last) == s then [Rank(last) as int] else [])
  }

  lemma {:induction false} FlushListMembers(cards: seq<Card>, s: int, i: nat)
    requires i <= |cards|
    ensures forall y :: y in FlushList(cards[..i], s) <==> 0 <= y < 13 && CardOf(y, s) in cards[..i]
  {
    if i > 0 {
      var init := cards[..i - 1];
      var last := cards[i - 1];
      assert cards[..i][..i - 1] == init;
      assert cards[..i] == init + [last];
      FlushListMembers(cards, s, i - 1);
      assert last == CardOf(Rank(last), Suit(last));
      forall y ensures y in FlushList(cards[..i], s) <==> 0 <= y < 13 && CardOf(y, s) in cards[..i] {
        if 0 <= y < 13 && CardOf(y, s) == last {
          assert Suit(last) == s && Rank(last) == y;
        }
      }
    }
  }

  lemma FlushListSnoc(cards: seq<Card>, s: int, i: nat)
    requires 0 < i <= |cards|
    ensures FlushList(cards[..i], s)
            == FlushList(cards[..i - 1], s) + (if Suit(cards[i - 1]) == s then [Rank(cards[i - 1]) as int] else [])
  {
    assert cards[..i][..i - 1] == cards[..i - 1];
  }

  lemma {:induction false} FlushListFacts(cards: seq<Card>, s: int, i: nat)
    requires Distinct(cards) && i <= |cards|
    ensures |FlushList(cards[..i], s)| == SuitCount(cards[..i], s)
    ensures forall k :: 0 <= k < |FlushList(cards[..i], s)| ==> 0 <= FlushList(cards[..i], s)[k] <= 12
    ensures NoRepeats(FlushList(cards[..i], s))
  {
    if i == 0 {
      assert SuitCards(cards[..0], s) == {};
    } else {
      var last := cards[i - 1];
      var prev := FlushList(cards[..i - 1], s);
      var extra := if Suit(last) == s then [Rank(last) as int] else [];
      FlushListFacts(cards, s, i - 1);
      SuitCardsSnoc(cards, i - 1, s);
      FlushListSnoc(cards, s, i);
      RanksConcat(prev, extra);
      if Suit(last) == s {
        NewFlushRank(cards, s, i);
        NoRepeatsSnoc(prev, Rank(last) as int);
      }
    }
  }

  /** The rank of a card of the suit is not yet among the flush ranks of
      the distinct cards before it. */
  lemma NewFlushRank(cards: seq<Card>, s: int, i: nat)
    requires Distinct(cards) && 0 < i <= |cards| && Suit(cards[i - 1]) == s
    ensures Rank(cards[i - 1]) as int !in FlushList(cards[..i - 1], s)
  {
    var last := cards[i - 1];
    FlushListMembers(cards, s, i - 1);
    assert last == CardOf(Rank(last), s);
    assert last !in cards[..i - 1];
  }

  lemma RanksConcat(xs: seq<int>, ys: seq<int>)
    requires forall k :: 0 <= k < |xs| ==> 0 <= xs[k] <= 12
    requires forall k :: 0 <= k < |ys| ==> 0 <= ys[k] <= 12
    ensures forall k :: 0 <= k < |xs + ys| ==> 0 <= (xs + ys)[k] <= 12
  {
  }

  /** Sorted flush ranks are the flush rank set, highest first, and there
      are as many as there are cards of the suit. */
  lemma FlushRanksSorted(cards: seq<Card>, s: int)
    requires Distinct(cards)
    ensures SortDesc(FlushList(cards, s)) == Ranked(FlushRanks(cards, s))
    ensures |Ranked(FlushRanks(cards, s))| == SuitCount(cards, s)
  {
    FlushListFacts(cards, s, |cards|);
    FlushListMembers(cards, s, |cards|);
    assert cards[..|cards|] == cards;
    SortedRanks(FlushList(cards, s), FlushRanks(cards, s));
  }

  // =====================================================================
  // Multiplicities (quads, trips, pairs) over the 13 rank counts

  /** `rank_counts` as the source builds it. */
  function RankCounts(cards: seq<Card>): (counts: seq<int>)
    ensures |counts| == 13
  {
    seq(13, r requires 0 <= r < 13 => RankCount(cards, r) as int)
  }

  function Sum(counts: seq<int>, lo: nat): int
    requires |counts| == 13
    decreases 13 - lo
  {
    if lo >= 13 then 0 else counts[lo] + Sum(counts, lo + 1)
  }

  /** The rank counts of seven distinct cards: 13 counts, each 0..4, summing to 7. */
  predicate HandCounts(counts: seq<int>) {
    |counts| == 13 && Sum(counts, 0) == 7 &&
    forall r :: 0 <= r < 13 ==> 0 <= counts[r] <= 4
  }

  /** The ranks held exactly `k` times. */
  function Holding(counts: seq<int>, k: int): set<int>
    requires |counts| == 13
  {
    set r | 0 <= r < 13 && counts[r] == k
  }

  function WithCount(counts: seq<int>, k: int): seq<int>
    requires |counts| == 13
  {
    Ranked(Holding(counts, k))
  }

  function PresentOf(counts: seq<int>): set<int>
    requires |counts| == 13
  {
    set r | 0 <= r < 13 && counts[r] > 0
  }

  /** The highest ranks present other than those in `exclude`, at most `n` of them. */
  function Kickers(counts: seq<int>, exclude: set<int>, n: nat): seq<int>
    requires |counts| == 13
  {
    Take(Ranked(PresentOf(counts) - exclude), n)
  }

  lemma {:induction false} SumBump(a: seq<int>, b: seq<int>, k: int, lo: nat)
    requires |a| == 13 && |b| == 13 && 0 <= k < 13
    requires forall r :: 0 <= r < 13 ==> b[r] == a[r] + (if r == k then 1 else 0)
    ensures Sum(b, lo) == Sum(a, lo) + (if lo <= k then 1 else 0)
    decreases 13 - lo
  {
    if lo < 13 {
      SumBump(a, b, k, lo + 1);
    }
  }

  lemma {:induction false} RankCountsSum(cards: seq<Card>, i: nat)
    requires Distinct(cards) && i <= |cards|
    ensures Sum(RankCounts(cards[..i]), 0) == i
  {
    if i == 0 {
      SumZero(RankCounts(cards[..0]), 0);
    } else {
      RankCountsSum(cards, i - 1);
      RankCountsSnoc(cards, i);
      SumBump(RankCounts(cards[..i - 1]), RankCounts(cards[..i]), Rank(cards[i - 1]), 0);
    }
  }

  /** One more card adds one to the count of its rank. */
  lemma RankCountsSnoc(cards: seq<Card>, i: nat)
    requires Distinct(cards) && 0 < i <= |cards|
    ensures forall r :: 0 <= r < 13 ==>
      RankCounts(cards[..i])[r] == RankCounts(cards[..i - 1])[r] + (if r == Rank(cards[i - 1]) then 1 else 0)
  {
    forall r | 0 <= r < 13
      ensures RankCounts(cards[..i])[r] == RankCounts(cards[..i - 1])[r] + (if r == Rank(cards[i - 1]) then 1 else 0)
    {
      RankCardsSnoc(cards, i - 1, r);
    }
  }

  lemma {:induction false} SumZero(a: seq<int>, lo: nat)
    requires |a| == 13 && forall r :: 0 <= r < 13 ==> a[r] == 0
    ensures Sum(a, lo) == 0
    decreases 13 - lo
  {
    if lo < 13 {
      SumZero(a, lo + 1);
    }
  }

  lemma HandCountsOf(cards: seq<Card>)
    requires ValidHand(cards)
    ensures HandCounts(RankCounts(cards))
  {
    RankCountsSum(cards, 7);
    assert cards[..7] == cards;
    forall r | 0 <= r < 13 ensures RankCounts(cards)[r] <= 4 {
      RankCountAtMost4(cards, r);
    }
  }

  /** With every rank other than `x` held at most once, the distinct ranks
      other than `x` number at least the cards other than `x`'s. */
  lemma {:induction false} KickerSupply(counts: seq<int>, x: int, lo: nat)
    requires |counts| == 13 && lo <= 13
    requires forall r :: 0 <= r < 13 ==> counts[r] >= 0
    requires forall r :: lo <= r < 13 && r != x ==> counts[r] <= 1
    ensures |Desc(PresentOf(counts) - {x}, lo, 12)| + (if lo <= x <= 12 then counts[x] else 0) >= Sum(counts, lo)
    decreases 13 - lo
  {
    if lo < 13 {
      KickerSupply(counts, x, lo + 1);
    }
  }

  // =====================================================================
  // The reference definition

  /** The pair part of a full house: the second trip, unless a pair ranks
      above it (which a descending trips list and seven cards rule out), or
      else the highest pair. */
  function FullHouseSecond(trips: seq<int>, pairs: seq<int>): int
    requires |trips| >= 2 || |pairs| > 0
  {
    if |trips| >= 2 then (if |pairs| > 0 && pairs[0] > trips[1] then pairs[0] else trips[1])
    else pairs[0]
  }

  /** The paired-hand part (quads, full house, trips, two pair, one pair,
      high card), over the rank counts. */
  function OfAKind(counts: seq<int>): HandValue
    requires HandCounts(counts)
  {
    var quads := WithCount(counts, 4);
    var trips := WithCount(counts, 3);
    var pairs := WithCount(counts, 2);
    if |quads| > 0 then
      HandValue(7, [quads[0], FirstOr(Kickers(counts, {quads[0]}, 1), 0)])
    else if |trips| > 0 && (|trips| >= 2 || |pairs| > 0) then
      HandValue(6, [trips[0], FullHouseSecond(trips, pairs)])
    else if |trips| == 1 then
      TripsKickers(counts);
      HandValue(3, [trips[0]] + Kickers(counts, {trips[0]}, 2))
    else if |pairs| >= 2 then
      HandValue(2, [pairs[0], pairs[1], FirstOr(Kickers(counts, {pairs[0], pairs[1]}, 1), 0)])
    else if |pairs| == 1 then
      PairKickers(counts);
      HandValue(1, [pairs[0]] + Kickers(counts, {pairs[0]}, 3))
    else
      HandValue(0, Kickers(counts, {}, 5))
  }

  // One lemma per branch of `OfAKind`, each naming the value it yields.

  lemma QuadsValue(counts: seq<int>)
    requires HandCounts(counts) && |WithCount(counts, 4)| > 0
    ensures var q := WithCount(counts, 4)[0];
            OfAKind(counts) == HandValue(7, [q, FirstOr(Kickers(counts, {q}, 1), 0)])
  {
  }

  lemma FullHouseValue(counts: seq<int>)
    requires HandCounts(counts) && |WithCount(counts, 4)| == 0 && |WithCount(counts, 3)| > 0
    requires |WithCount(counts, 3)| >= 2 || |WithCount(counts, 2)| > 0
    ensures OfAKind(counts) == HandValue(6, [WithCount(counts, 3)[0], FullHouseSecond(WithCount(counts, 3), WithCount(counts, 2))])
  {
  }

  lemma TripsValue(counts: seq<int>)
    requires HandCounts(counts) && |WithCount(counts, 4)| == 0 && |WithCount(counts, 3)| == 1 && |WithCount(counts, 2)| == 0
    ensures var t := WithCount(counts, 3)[0];
            OfAKind(counts) == HandValue(3, [t] + Kickers(counts, {t}, 2))
  {
  }

  lemma TwoPairValue(counts: seq<int>)
    requires HandCounts(counts) && |WithCount(counts, 4)| == 0 && |WithCount(counts, 3)| == 0 && |WithCount(counts, 2)| >= 2
    ensures var p := WithCount(counts, 2);
            OfAKind(counts) == HandValue(2, [p[0], p[1], FirstOr(Kickers(counts, {p[0], p[1]}, 1), 0)])
  {
  }

  lemma OnePairValue(counts: seq<int>)
    requires HandCounts(counts) && |WithCount(counts, 4)| == 0 && |WithCount(counts, 3)| == 0 && |WithCount(counts, 2)| == 1
    ensures var p := WithCount(counts, 2)[0];
            OfAKind(counts) == HandValue(1, [p] + Kickers(counts, {p}, 3))
  {
  }

  lemma HighCardValue(counts: seq<int>)
    requires HandCounts(counts) && |WithCount(counts, 4)| == 0 && |WithCount(counts, 3)| == 0 && |WithCount(counts, 2)| == 0
    ensures OfAKind(counts) == HandValue(0, Kickers(counts, {}, 5))
  {
  }

  lemma WithCountMembers(counts: seq<int>, k: int)
    requires |counts| == 13
    ensures forall r :: r in WithCount(counts, k) <==> 0 <= r < 13 && counts[r] == k
    ensures StrictDesc(WithCount(counts, k))
  {
    DescMembers(Holding(counts, k), 0, 12);
  }

  /** With no rank of count `k`, no count is `k`; with one, it is the only one. */
  lemma CountsOf(counts: seq<int>, k: int)
    requires |counts| == 13
    ensures |WithCount(counts, k)| == 0 ==> forall r :: 0 <= r < 13 ==> counts[r] != k
    ensures |WithCount(counts, k)| == 1 ==> forall r :: 0 <= r < 13 && counts[r] == k ==> r == WithCount(counts, k)[0]
  {
    WithCountMembers(counts, k);
    forall r | 0 <= r < 13 && counts[r] == k ensures r in WithCount(counts, k) {
    }
  }

  /** No rank held more than once: five ranks are present. */
  lemma HighKickers(counts: seq<int>)
    requires HandCounts(counts)
    requires |WithCount(counts, 4)| == 0 && |WithCount(counts, 3)| == 0 && |WithCount(counts, 2)| == 0
    ensures |Ranked(PresentOf(counts) - {})| >= 5
  {
    CountsOf(counts, 4);
    CountsOf(counts, 3);
    CountsOf(counts, 2);
    FiveSingles(counts);
  }

  lemma FiveSingles(counts: seq<int>)
    requires |counts| == 13 && Sum(counts, 0) == 7
    requires forall r :: 0 <= r < 13 ==> 0 <= counts[r] <= 1
    ensures |Ranked(PresentOf(counts) - {})| >= 5
  {
    KickerSupply(counts, -1, 0);
    MinusAbsent(PresentOf(counts), -1);
  }

  lemma MinusAbsent(S: set<int>, x: int)
    requires x !in S
    ensures S - {x} == S - {}
  {
  }

  /** Exactly one trip and no pair or quad: two kickers remain. */
  lemma TripsKickers(counts: seq<int>)
    requires HandCounts(counts)
    requires |WithCount(counts, 4)| == 0 && |WithCount(counts, 3)| == 1 && |WithCount(counts, 2)| == 0
    ensures |Ranked(PresentOf(counts) - {WithCount(counts, 3)[0]})| >= 4
  {
    var t := WithCount(counts, 3)[0];
    WithCountMembers(counts, 3);
    assert t in WithCount(counts, 3);
    CountsOf(counts, 4);
    CountsOf(counts, 3);
    CountsOf(counts, 2);
    assert forall r :: 0 <= r < 13 && r != t ==> counts[r] <= 1;
    KickerSupply(counts, t, 0);
  }

  /** Exactly one pair and nothing bigger: three kickers remain. */
  lemma PairKickers(counts: seq<int>)
    requires HandCounts(counts)
    requires |WithCount(counts, 4)| == 0 && |WithCount(counts, 3)| == 0 && |WithCount(counts, 2)| == 1
    ensures |Ranked(PresentOf(counts) - {WithCount(counts, 2)[0]})| >= 5
  {
    var p := WithCount(counts, 2)[0];
    WithCountMembers(counts, 2);
    assert p in WithCount(counts, 2);
    CountsOf(counts, 4);
    CountsOf(counts, 3);
    CountsOf(counts, 2);
    assert forall r :: 0 <= r < 13 && r != p ==> counts[r] <= 1;
    KickerSupply(counts, p, 0);
  }

  /** The category and tiebreak ranks of a 7-card hand. */
  function Evaluate(cards: seq<Card>): HandValue
    requires ValidHand(cards)
  {
    match FlushSuit(cards)
    case Some(fs) => FlushValue(cards, fs)
    case None => NoFlushValue(cards)
  }

  /** Five or more cards of suit `fs`: a straight flush or a flush of the
      five highest ranks of that suit. */
  function FlushValue(cards: seq<Card>, fs: int): HandValue
    requires Distinct(cards) && SuitCount(cards, fs) >= 5
  {
    var fr := FlushRanks(cards, fs);
    match StraightHigh(fr)
    case Some(h) => HandValue(8, [h])
    case None =>
      FlushRanksSorted(cards, fs);
      HandValue(5, Ranked(fr)[..5])
  }

  /** No five cards of one suit: a straight, or else a paired hand or high card. */
  function NoFlushValue(cards: seq<Card>): HandValue
    requires ValidHand(cards)
  {
    match StraightHigh(RankSet(cards))
    case Some(h) => HandValue(4, [h])
    case None =>
      HandCountsOf(cards);
      OfAKind(RankCounts(cards))
  }

  // =====================================================================
  // The procedure: `evaluate_hand`

  /** `ranks = [c % 13 for c in cards]` */
  function RanksOf(cards: seq<Card>): (ranks: seq<int>)
    ensures |ranks| == |cards|
  {
    seq(|cards|, i requires 0 <= i < |cards| => Rank(cards[i]) as int)
  }

  /** `Pow16(k)` is `1 << 4k`. */
  lemma Pow16Values()
    ensures Pow16(0) == 1 && Pow16(1) == 0x10 && Pow16(2) == 0x100
    ensures Pow16(3) == 0x1000 && Pow16(4) == 0x1_0000 && Pow16(5) == 0x10_0000
  {
  }

  function Field(ranks: seq<int>, i: nat): int {
    if i < |ranks| then ranks[i] else 0
  }

  lemma PackStep(ranks: seq<int>, i: nat)
    requires i < 5
    ensures PackFrom(ranks, i) == Field(ranks, i) * Pow16(4 - i) + PackFrom(ranks, i + 1)
  {
  }

  /** A score is the category shifted by 20 plus the rank fields shifted
      by 16, 12, 8, 4 and 0. */
  lemma ScoreFields(v: HandValue)
    ensures Score(v) == v.category * 0x10_0000 + Field(v.ranks, 0) * 0x1_0000 + Field(v.ranks, 1) * 0x1000
                        + Field(v.ranks, 2) * 0x100 + Field(v.ranks, 3) * 0x10 + Field(v.ranks, 4)
  {
    Pow16Values();
    PackStep(v.ranks, 0);
    PackStep(v.ranks, 1);
    PackStep(v.ranks, 2);
    PackStep(v.ranks, 3);
    PackStep(v.ranks, 4);
  }

  // The fixed-shape scores the procedure assembles with `|`.

  lemma ScoreOf(c: int, ks: seq<int>)
    ensures Score(HandValue(c, ks)) == c * 0x10_0000 + PackFrom(ks, 0)
  {
    Pow16Values();
  }

  lemma Score1(c: int, a: int)
    ensures Score(HandValue(c, [a])) == c * 0x10_0000 + a * 0x1_0000
  {
    ScoreFields(HandValue(c, [a]));
  }

  lemma Score2(c: int, a: int, b: int)
    ensures Score(HandValue(c, [a, b])) == c * 0x10_0000 + a * 0x1_0000 + b * 0x1000
  {
    ScoreFields(HandValue(c, [a, b]));
  }

  lemma Score3(c: int, a: int, b: int, d: int)
    ensures Score(HandValue(c, [a, b, d])) == c * 0x10_0000 + a * 0x1_0000 + b * 0x1000 + d * 0x100
  {
    ScoreFields(HandValue(c, [a, b, d]));
  }

  lemma Score4(c: int, a: int, b: int, d: int, e: int)
    ensures Score(HandValue(c, [a, b, d, e])) == c * 0x10_0000 + a * 0x1_0000 + b * 0x1000 + d * 0x100 + e * 0x10
  {
    ScoreFields(HandValue(c, [a, b, d, e]));
  }

  lemma SuitCountsSnoc(cards: seq<Card>, i: nat)
    requires i < |cards| && Distinct(cards)
    ensures forall t :: 0 <= t < 4 ==>
      SuitCount(cards[..i + 1], t) == SuitCount(cards[..i], t) + (if Suit(cards[i]) == t then 1 else 0)
  {
    forall t | 0 <= t < 4
      ensures SuitCount(cards[..i + 1], t) == SuitCount(cards[..i], t) + (if Suit(cards[i]) == t then 1 else 0)
    {
      SuitCardsSnoc(cards, i, t);
    }
  }

  /** A suit reaching five in a prefix is the flush suit: no other suit has room. */
  lemma FlushFound(cards: seq<Card>, i: nat, s: int)
    requires ValidHand(cards) && 0 <= s < 4 && i <= |cards| && SuitCount(cards[..i], s) >= 5
    ensures FlushSuit(cards) == Some(s)
  {
    assert SuitCards(cards[..i], s) <= SuitCards(cards, s);
    SubsetCard(SuitCards(cards[..i], s), SuitCards(cards, s));
    forall t | 0 <= t < 4 && t != s ensures SuitCount(cards, t) < 5 {
      SuitUnique(cards, s, t);
    }
  }

  /** The suit loop with its early `break`: -1 when no suit reaches five. */
  method FindFlushSuit(cards: seq<Card>) returns (flushSuit: int)
    requires ValidHand(cards)
    ensures FlushSuit(cards) == if flushSuit == -1 then None else Some(flushSuit)
  {
    var suitCounts := new int[4](_ => 0);
    flushSuit := -1;
    for i := 0 to |cards|
      invariant forall t :: 0 <= t < 4 ==> suitCounts[t] == SuitCount(cards[..i], t) < 5
      invariant flushSuit == -1
    {
      var s := Suit(cards[i]);
      SuitCountsSnoc(cards, i);
      suitCounts[s] := suitCounts[s] + 1;
      if suitCounts[s] >= 5 {
        flushSuit := s;
        FlushFound(cards, i + 1, s);
        return;
      }
    }
    assert cards[..|cards|] == cards;
  }

  /** `mask |= 1 << r` for every `r` of `xs`. */
  method MaskOf(xs: seq<int>) returns (mask: set<int>)
    ensures forall y :: y in mask <==> y in xs
  {
    mask := {};
    for k := 0 to |xs|
      invariant forall y :: y in mask <==> y in xs[..k]
    {
      assert xs[..k + 1] == xs[..k] + [xs[k]];
      mask := mask + {xs[k]};
    }
    assert xs[..|xs|] == xs;
  }

  /** The window scan: the nine 5-rank windows from Ace-high down, then the
      wheel; -1 when `mask` holds no straight. */
  method FindStraight(mask: set<int>) returns (high: int)
    ensures StraightHigh(mask) == if high == -1 then None else Some(high)
  {
    var i := 12;
    while i > 3
      invariant 3 <= i <= 12
      invariant StraightHigh(mask) == ScanFrom(mask, i)
      decreases i
    {
      var window := BuildWindow(i);
      if window <= mask {
        return i;
      }
      i := i - 1;
    }
    if Wheel <= mask {
      return 3;
    }
    return -1;
  }

  /** `s_mask |= (1 << (i - j))` for the five `j`: one window's bits, as a set. */
  method BuildWindow(high: int) returns (window: set<int>)
    ensures window == Window(high)
  {
    window := {};
    for j := 0 to 5
      invariant forall y :: y in window <==> high - j < y <= high
    {
      window := window + {high - j};
    }
  }

  /** `for r in range(12, -1, -1)`: the ranks of each multiplicity, highest first. */
  method GroupRanks(counts: seq<int>) returns (quads: seq<int>, trips: seq<int>, pairs: seq<int>, singles: seq<int>)
    requires |counts| == 13
    ensures quads == WithCount(counts, 4) && trips == WithCount(counts, 3)
    ensures pairs == WithCount(counts, 2) && singles == WithCount(counts, 1)
  {
    ghost var s4 := Holding(counts, 4);
    ghost var s3 := Holding(counts, 3);
    ghost var s2 := Holding(counts, 2);
    ghost var s1 := Holding(counts, 1);
    quads, trips, pairs, singles := [], [], [], [];
    var r := 12;
    while r >= 0
      invariant -1 <= r <= 12
      invariant quads == Desc(s4, r + 1, 12) && trips == Desc(s3, r + 1, 12)
      invariant pairs == Desc(s2, r + 1, 12) && singles == Desc(s1, r + 1, 12)
      decreases r + 1
    {
      var c := counts[r];
      GroupStep(counts, r, 4);
      GroupStep(counts, r, 3);
      GroupStep(counts, r, 2);
      GroupStep(counts, r, 1);
      if c == 4 {
        quads := quads + [r];
      } else if c == 3 {
        trips := trips + [r];
      } else if c == 2 {
        pairs := pairs + [r];
      } else if c == 1 {
        singles := singles + [r];
      }
      r := r - 1;
    }
  }

  /** Scanning rank `r` appends it to the ranks held `k` times exactly when
      its count is `k`. */
  lemma GroupStep(counts: seq<int>, r: int, k: int)
    requires |counts| == 13 && 0 <= r <= 12
    ensures var S := Holding(counts, k);
            Desc(S, r, 12) == Desc(S, r + 1, 12) + (if counts[r] == k then [r] else [])
  {
  }

  /** The kicker loops: ranks present and not excluded, highest first,
      stopping once `limit` are collected. */
  method CollectKickers(counts: seq<int>, exclude: set<int>, limit: nat) returns (kickers: seq<int>)
    requires |counts| == 13 && limit >= 1
    ensures kickers == Kickers(counts, exclude, limit)
  {
    ghost var present := PresentOf(counts) - exclude;
    kickers := [];
    var r := 12;
    while r >= 0
      invariant -1 <= r <= 12
      invariant kickers == Desc(present, r + 1, 12) && |kickers| < limit
      decreases r + 1
    {
      if r !in exclude && counts[r] > 0 {
        kickers := kickers + [r];
        if |kickers| == limit {
          DescSplit(present, 0, r, 12);
          return;
        }
      }
      r := r - 1;
    }
  }

  /** The paired-hand half of `evaluate_hand`, from `rank_counts` on. */
  method ScorePaired(counts: seq<int>) returns (score: int)
    requires HandCounts(counts)
    ensures score == Score(OfAKind(counts))
  {
    var quads, trips, pairs, singles := GroupRanks(counts);
    if |quads| > 0 {
      score := ScoreQuads(counts, quads);
    } else if |trips| > 0 && (|trips| >= 2 || |pairs| > 0) {
      score := ScoreFullHouse(counts, trips, pairs);
    } else {
      score := ScoreLowPaired(counts, trips, pairs);
    }
  }

  /** Four of a kind and the highest other rank as kicker. */
  method ScoreQuads(counts: seq<int>, quads: seq<int>) returns (score: int)
    requires HandCounts(counts) && quads == WithCount(counts, 4) && |quads| > 0
    ensures score == Score(OfAKind(counts))
  {
    var kicker := 0;
    var ks := CollectKickers(counts, {quads[0]}, 1);
    if |ks| > 0 {
      kicker := ks[0];
    }
    QuadsValue(counts);
    Score2(7, quads[0], kicker);
    return 7 * 0x10_0000 + quads[0] * 0x1_0000 + kicker * 0x1000;
  }

  /** A full house: the highest trip over the second trip or the highest pair. */
  method ScoreFullHouse(counts: seq<int>, trips: seq<int>, pairs: seq<int>) returns (score: int)
    requires HandCounts(counts) && |WithCount(counts, 4)| == 0
    requires trips == WithCount(counts, 3) && pairs == WithCount(counts, 2)
    requires |trips| > 0 && (|trips| >= 2 || |pairs| > 0)
    ensures score == Score(OfAKind(counts))
  {
    var highTrip := trips[0];
    var highPair := 0;
    if |trips| >= 2 {
      highPair := trips[1];
    } else if |pairs| > 0 {
      highPair := pairs[0];
    }
    if |pairs| > 0 && |trips| >= 2 && pairs[0] > trips[1] {
      highPair := pairs[0];
    }
    assert highPair == FullHouseSecond(trips, pairs);
    FullHouseScore(counts, highTrip, highPair);
    return 6 * 0x10_0000 + highTrip * 0x1_0000 + highPair * 0x1000;
  }

  /** Trips, two pair, one pair and high card. */
  method ScoreLowPaired(counts: seq<int>, trips: seq<int>, pairs: seq<int>) returns (score: int)
    requires HandCounts(counts) && |WithCount(counts, 4)| == 0
    requires trips == WithCount(counts, 3) && pairs == WithCount(counts, 2)
    requires !(|trips| > 0 && (|trips| >= 2 || |pairs| > 0))
    ensures score == Score(OfAKind(counts))
  {
    if |trips| == 1 {
      TripsKickers(counts);
      var ks := CollectKickers(counts, {trips[0]}, 2);
      TripsValue(counts);
      assert [trips[0]] + ks == [trips[0], ks[0], ks[1]];
      Score3(3, trips[0], ks[0], ks[1]);
      return 3 * 0x10_0000 + trips[0] * 0x1_0000 + ks[0] * 0x1000 + ks[1] * 0x100;
    }
    score := ScorePairs(counts, pairs);
  }

  /** Two pair, one pair and high card. */
  method ScorePairs(counts: seq<int>, pairs: seq<int>) returns (score: int)
    requires HandCounts(counts) && |WithCount(counts, 4)| == 0 && |WithCount(counts, 3)| == 0
    requires pairs == WithCount(counts, 2)
    ensures score == Score(OfAKind(counts))
  {
    if |pairs| >= 2 {
      score := ScoreTwoPair(counts, pairs);
    } else if |pairs| == 1 {
      score := ScoreOnePair(counts, pairs);
    } else {
      score := ScoreHighCard(counts);
    }
  }

  /** Two pair: the two highest pairs and the highest other rank as kicker. */
  method ScoreTwoPair(counts: seq<int>, pairs: seq<int>) returns (score: int)
    requires HandCounts(counts) && |WithCount(counts, 4)| == 0 && |WithCount(counts, 3)| == 0
    requires pairs == WithCount(counts, 2) && |pairs| >= 2
    ensures score == Score(OfAKind(counts))
  {
    var p1 := pairs[0];
    var p2 := pairs[1];
    var kicker := 0;
    var ks := CollectKickers(counts, {p1, p2}, 1);
    if |ks| > 0 {
      kicker := ks[0];
    }
    TwoPairValue(counts);
    Score3(2, p1, p2, kicker);
    return 2 * 0x10_0000 + p1 * 0x1_0000 + p2 * 0x1000 + kicker * 0x100;
  }

  /** One pair and the three highest other ranks. */
  method ScoreOnePair(counts: seq<int>, pairs: seq<int>) returns (score: int)
    requires HandCounts(counts) && |WithCount(counts, 4)| == 0 && |WithCount(counts, 3)| == 0
    requires pairs == WithCount(counts, 2) && |pairs| == 1
    ensures score == Score(OfAKind(counts))
  {
    PairKickers(counts);
    var ks := CollectKickers(counts, {pairs[0]}, 3);
    OnePairValue(counts);
    assert [pairs[0]] + ks == [pairs[0], ks[0], ks[1], ks[2]];
    Score4(1, pairs[0], ks[0], ks[1], ks[2]);
    return 1 * 0x10_0000 + pairs[0] * 0x1_0000 + ks[0] * 0x1000 + ks[1] * 0x100 + ks[2] * 0x10;
  }

  /** No two cards share a rank: the five highest ranks. */
  method ScoreHighCard(counts: seq<int>) returns (score: int)
    requires HandCounts(counts)
    requires |WithCount(counts, 4)| == 0 && |WithCount(counts, 3)| == 0 && |WithCount(counts, 2)| == 0
    ensures score == Score(OfAKind(counts))
  {
    score := PackHighCards(counts);
    HighCardScore(counts, Kickers(counts, {}, 5), score);
  }

  /** The five highest ranks present, packed into the kicker fields. */
  method PackHighCards(counts: seq<int>) returns (score: int)
    requires |counts| == 13
    ensures score == PackFrom(Kickers(counts, {}, 5), 0)
  {
    var ks := CollectKickers(counts, {}, 5);
    score := PackFields(0, ks);
  }

  /** The score of a full house with top trip `t` and second rank `p`. */
  lemma FullHouseScore(counts: seq<int>, t: int, p: int)
    requires HandCounts(counts) && |WithCount(counts, 4)| == 0 && |WithCount(counts, 3)| > 0
    requires |WithCount(counts, 3)| >= 2 || |WithCount(counts, 2)| > 0
    requires t == WithCount(counts, 3)[0] && p == FullHouseSecond(WithCount(counts, 3), WithCount(counts, 2))
    ensures Score(OfAKind(counts)) == 6 * 0x10_0000 + t * 0x1_0000 + p * 0x1000
  {
    FullHouseValue(counts);
    Score2(6, t, p);
  }

  /** The score of a high-card hand packs its five kickers. */
  lemma HighCardScore(counts: seq<int>, ks: seq<int>, score: int)
    requires HandCounts(counts) && |WithCount(counts, 4)| == 0 && |WithCount(counts, 3)| == 0 && |WithCount(counts, 2)| == 0
    requires ks == Kickers(counts, {}, 5) && score == 0 + PackFrom(ks, 0)
    ensures score == Score(OfAKind(counts))
  {
    HighCardValue(counts);
    ScoreOf(0, ks);
  }

  /** `for i, k in enumerate(ks): score |= k << (16 - 4*i)`, from `score = base`. */
  method PackFields(base: int, ks: seq<int>) returns (score: int)
    requires |ks| <= 5
    ensures score == base + PackFrom(ks, 0)
  {
    score := base;
    for i := 0 to |ks|
      invariant score == base + PackFrom(ks, 0) - PackFrom(ks, i)
    {
      score := score + ks[i] * Pow16(4 - i);
    }
    assert PackFrom(ks, |ks|) == 0;
  }

  /** The flush branch of `evaluate_hand`. */
  method ScoreFlush(cards: seq<Card>, flushSuit: int) returns (score: int)
    requires ValidHand(cards) && FlushSuit(cards) == Some(flushSuit)
    ensures score == Score(Evaluate(cards))
  {
    var flushRanks := SortDesc(FlushList(cards, flushSuit));
    FlushRanksSorted(cards, flushSuit);
    var mask := MaskOf(flushRanks);
    FlushMask(cards, flushSuit, mask);
    var high := FindStraight(mask);
    FlushCases(cards, flushSuit);
    if high != -1 {
      Score1(8, high);
      return 8 * 0x10_0000 + high * 0x1_0000;
    }
    var top := flushRanks[..5];
    ScoreOf(5, top);
    score := PackFields(5 * 0x10_0000, top);
  }

  /** The bits set from the sorted flush ranks are the flush ranks. */
  lemma FlushMask(cards: seq<Card>, fs: int, mask: set<int>)
    requires forall y :: y in mask <==> y in Ranked(FlushRanks(cards, fs))
    ensures mask == FlushRanks(cards, fs)
  {
    DescMembers(FlushRanks(cards, fs), 0, 12);
  }

  /** The two outcomes of the flush branch. */
  lemma FlushCases(cards: seq<Card>, fs: int)
    requires ValidHand(cards) && FlushSuit(cards) == Some(fs)
    ensures var fr := FlushRanks(cards, fs);
            match StraightHigh(fr)
            case Some(h) => Evaluate(cards) == HandValue(8, [h])
            case None => |Ranked(fr)| >= 5 && Evaluate(cards) == HandValue(5, Ranked(fr)[..5])
  {
    FlushRanksSorted(cards, fs);
  }

  /** `evaluate_hand`: the score of seven distinct cards. */
  method EvaluateHand(cards: seq<Card>) returns (score: int)
    requires ValidHand(cards)
    ensures score == Score(Evaluate(cards))
  {
    var ranks := RanksOf(cards);
    var flushSuit := FindFlushSuit(cards);
    if flushSuit != -1 {
      score := ScoreFlush(cards, flushSuit);
      return;
    }
    score := ScoreNoFlush(cards, ranks);
  }

  /** The ranks present are the rank set of the cards. */
  lemma RanksOfSet(cards: seq<Card>)
    ensures forall y :: y in RanksOf(cards) <==> y in RankSet(cards)
  {
    var ranks := RanksOf(cards);
    forall y | y in ranks ensures y in RankSet(cards) {
      var i :| 0 <= i < |ranks| && ranks[i] == y;
      assert cards[i] in cards;
    }
    forall y | y in RankSet(cards) ensures y in ranks {
      var c :| c in cards && Rank(c) == y;
      var i :| 0 <= i < |cards| && cards[i] == c;
      assert ranks[i] == y;
    }
  }

  /** The branch of `evaluate_hand` after the suit loop found no flush. */
  method ScoreNoFlush(cards: seq<Card>, ranks: seq<int>) returns (score: int)
    requires ValidHand(cards) && FlushSuit(cards).None? && ranks == RanksOf(cards)
    ensures score == Score(Evaluate(cards))
  {
    var mask := MaskOf(ranks);
    RankMask(cards, mask);
    var high := FindStraight(mask);
    NoFlushCases(cards);
    if high != -1 {
      Score1(4, high);
      return 4 * 0x10_0000 + high * 0x1_0000;
    }
    var counts := CountRanks(cards, ranks);
    score := ScorePaired(counts);
  }

  /** The bits set from the ranks of the cards are the ranks present. */
  lemma RankMask(cards: seq<Card>, mask: set<int>)
    requires forall y :: y in mask <==> y in RanksOf(cards)
    ensures mask == RankSet(cards)
  {
    RanksOfSet(cards);
    assert forall y :: y in mask <==> y in RankSet(cards);
  }

  /** The two outcomes of the branch without a flush. */
  lemma NoFlushCases(cards: seq<Card>)
    requires ValidHand(cards) && FlushSuit(cards).None?
    ensures match StraightHigh(RankSet(cards))
            case Some(h) => Evaluate(cards) == HandValue(4, [h])
            case None => HandCounts(RankCounts(cards)) && Evaluate(cards) == OfAKind(RankCounts(cards))
  {
    HandCountsOf(cards);
  }

  /** The `rank_counts` loop. */
  method CountRanks(cards: seq<Card>, ranks: seq<int>) returns (counts: seq<int>)
    requires Distinct(cards) && ranks == RanksOf(cards)
    ensures counts == RankCounts(cards)
  {
    var rankCounts := new int[13](_ => 0);
    for i := 0 to |cards|
      invariant forall r :: 0 <= r < 13 ==> rankCounts[r] == RankCount(cards[..i], r)
    {
      forall r | 0 <= r < 13 ensures RankCount(cards[..i + 1], r) == RankCount(cards[..i], r) + (if ranks[i] == r then 1 else 0) {
        RankCardsSnoc(cards, i, r);
      }
      rankCounts[ranks[i]] := rankCounts[ranks[i]] + 1;
    }
    assert cards[..|cards|] == cards;
    counts := rankCounts[..];
  }
}
