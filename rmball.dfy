/** src/strategies/RMBALL.py: the hand-label utilities `CardUtils`, the
    "GTOB" preflop table decoder `_load_gtob_preflop_v1`, and the pure
    decision helpers of `RobustMashupStrategy`. Ranks are written highest
    first, "AKQJT98765432", so a smaller rank index is a higher rank. */
module Rmball {
  import opened Wrappers
  import opened Cards
  import opened LutBytes
  import opened Dicts

  /** `CardUtils.RANKS` */
  const Ranks: string := "AKQJT98765432"

  /** `RANKS[k]` */
  function RankChar(k: nat): (c: char)
    requires k < 13
  {
    match k
    case 0 => 'A' case 1 => 'K' case 2 => 'Q' case 3 => 'J' case 4 => 'T' case 5 => '9'
    case 6 => '8' case 7 => '7' case 8 => '6' case 9 => '5' case 10 => '4' case 11 => '3'
    case _ => '2'
  }

  /** `RANKS.index(c)`, None where Python raises `ValueError`. */
  function RankIdx(c: char): (r: Option<nat>)
    ensures r.Some? ==> r.value < 13 && RankChar(r.value) == c
  {
    match c
    case 'A' => Some(0) case 'K' => Some(1) case 'Q' => Some(2) case 'J' => Some(3)
    case 'T' => Some(4) case '9' => Some(5) case '8' => Some(6) case '7' => Some(7)
    case '6' => Some(8) case '5' => Some(9) case '4' => Some(10) case '3' => Some(11)
    case '2' => Some(12)
    case _ => None
  }

  lemma RankAtHigh(k: nat)
    requires k < 13
    ensures RankIdx(RankChar(k)) == Some(k)
  {
  }

  /** The two functions spell out the string RANKS and its `index`. */
  lemma RankCharAgrees(k: nat)
    requires k < 13
    ensures RankChar(k) == Ranks[k]
  {
  }

  lemma RankIdxAgrees(c: char)
    ensures RankIdx(c) == IndexOf(Ranks, c)
  {
    if c in Ranks {
      var i :| 0 <= i < 13 && Ranks[i] == c;
      RankIdxAgreesAt(i);
    } else {
      RankIdxMissing(c);
    }
  }

  lemma RankIdxAgreesAt(i: nat)
    requires i < 13
    ensures RankIdx(Ranks[i]) == IndexOf(Ranks, Ranks[i]) == Some(i)
  {
    RanksDistinct();
    IndexOfDistinct(Ranks, i);
    RankCharAgrees(i);
    RankAtHigh(i);
  }

  lemma RanksDistinct()
    ensures forall i, j :: 0 <= i < j < |Ranks| ==> Ranks[i] != Ranks[j]
  {
    forall i, j | 0 <= i < j < |Ranks| ensures Ranks[i] != Ranks[j] {
      RankCharAgrees(i);
      RankCharAgrees(j);
      RankAtHigh(i);
      RankAtHigh(j);
    }
  }

  lemma RankIdxMissing(c: char)
    requires c !in Ranks
    ensures RankIdx(c) == None
  {
    RankIdxIn(c);
  }

  lemma RankIdxIn(c: char)
    ensures RankIdx(c).Some? ==> c in Ranks
  {
    if RankIdx(c).Some? {
      var k := RankIdx(c).value;
      RankCharAgrees(k);
      assert Ranks[k] == c;
    }
  }

  // ---------------------------------------------------------------
  // Hand labels
  // ---------------------------------------------------------------

  /** `c in RANKS` */
  predicate IsRank(c: char) {
    RankIdx(c).Some?
  }

  /** The rank index of a character known to be a rank. */
  function Idx(c: char): (i: nat)
    requires IsRank(c)
    ensures i < 13 && RankChar(i) == c
  {
    RankIdx(c).value
  }

  /** A label `get_hand_index` knows: a pair "QQ", or two different ranks,
      the higher first, followed by "s" or "o". */
  predicate IsHandLabel(l: string) {
    (|l| == 2 && l[0] == l[1] && IsRank(l[0])) ||
    (|l| == 3 && IsRank(l[0]) && IsRank(l[1]) && Idx(l[0]) < Idx(l[1]) && (l[2] == 's' || l[2] == 'o'))
  }

  /** The failures of `get_hand_label`: a missing card or character
      (`IndexError`) and a rank character outside RANKS (`ValueError`). */
  datatype LabelError = IndexError | ValueError

  /** `CardUtils.get_hand_label` */
  function GetHandLabel(hole: seq<string>): (r: Result<string, LabelError>)
    ensures r == Err(IndexError) <==> |hole| < 2 || |hole[0]| < 2 || |hole[1]| < 2
    ensures r.Ok? <==> |hole| >= 2 && |hole[0]| >= 2 && |hole[1]| >= 2 && IsRank(hole[0][0]) && IsRank(hole[1][0])
    ensures r.Ok? ==> IsHandLabel(r.value)
    ensures r.Ok? ==> multiset{r.value[0], r.value[1]} == multiset{hole[0][0], hole[1][0]}
    ensures r.Ok? ==> (|r.value| == 2 <==> hole[0][0] == hole[1][0])
    ensures r.Ok? && |r.value| == 3 ==> (r.value[2] == 's' <==> hole[0][1] == hole[1][1])
  {
    if |hole| < 2 || |hole[0]| < 2 || |hole[1]| < 2 then Err(IndexError)
    else
      var r1, s1, r2, s2 := hole[0][0], hole[0][1], hole[1][0], hole[1][1];
      if !IsRank(r1) || !IsRank(r2) then Err(ValueError)
      else
        var (hi, hs, lo, ls) := if Idx(r1) > Idx(r2) then (r2, s2, r1, s1) else (r1, s1, r2, s2);
        if hi == lo then Ok([hi, lo])
        else Ok([hi, lo, if hs == ls then 's' else 'o'])
  }

  /** The label does not depend on the order of the two cards. */
  lemma LabelSymmetric(a: string, b: string)
    ensures GetHandLabel([a, b]) == GetHandLabel([b, a])
  {
    if |a| >= 2 && |b| >= 2 && IsRank(a[0]) && IsRank(b[0]) && Idx(a[0]) == Idx(b[0]) {
      assert a[0] == RankChar(Idx(a[0])) == b[0];
    }
  }

  /** Where the rows of non-pair labels start: row `i` holds the ranks
      `j > i` paired with rank `i`, 12 - i of them. */
  function RowStart(i: nat): (n: nat)
    requires i <= 13
  {
    if i == 0 then 0 else RowStart(i - 1) + (13 - i)
  }

  lemma {:induction false} RowStartMono(i: nat, k: nat)
    requires i <= k <= 13
    ensures RowStart(i) <= RowStart(k)
    ensures i < k ==> RowStart(i) + (12 - i) <= RowStart(k)
  {
    if i < k {
      RowStartMono(i, k - 1);
    }
  }

  lemma RowStartGrows(i: nat, k: nat)
    requires i <= k <= 13
    ensures RowStart(i) <= RowStart(k) <= 78
    ensures i < k ==> RowStart(i) + (12 - i) <= RowStart(k)
  {
    RowStartMono(i, k);
    RowStartMono(k, 13);
    assert RowStart(13) == 78;
  }

  /** The position of the rank pair i < j among the 78 non-pair rank pairs. */
  function PairSlot(i: nat, j: nat): (n: nat)
    requires i < j < 13
    ensures n < 78
  {
    RowStartGrows(i, 13);
    RowStart(i) + (j - i - 1)
  }

  /** The numbering of `get_hand_index`: the 13 pairs first, then for each
      rank pair its suited label followed by its offsuit one. */
  function HandIndex(hand: string): (n: nat)
    ensures n < 169
    ensures IsHandLabel(hand) || n == 0
    ensures IsHandLabel(hand) ==> (n < 13 <==> |hand| == 2)
  {
    if |hand| == 2 && hand[0] == hand[1] && IsRank(hand[0]) then Idx(hand[0])
    else if IsHandLabel(hand) then 13 + 2 * PairSlot(Idx(hand[0]), Idx(hand[1])) + (if hand[2] == 's' then 0 else 1)
    else 0
  }

  /** A pair label, and the two labels of a rank pair. */
  function PairLabel(k: nat): string
    requires k < 13
  {
    [RankChar(k), RankChar(k)]
  }

  function NonPairLabel(i: nat, j: nat, suffix: char): string
    requires i < j < 13
  {
    [RankChar(i), RankChar(j), suffix]
  }

  lemma PairIndex(k: nat)
    requires k < 13
    ensures IsHandLabel(PairLabel(k)) && HandIndex(PairLabel(k)) == k
  {
    RankAtHigh(k);
  }

  lemma NonPairIndex(i: nat, j: nat, c: char)
    requires i < j < 13 && (c == 's' || c == 'o')
    ensures IsHandLabel(NonPairLabel(i, j, c))
    ensures HandIndex(NonPairLabel(i, j, c)) == 13 + 2 * PairSlot(i, j) + (if c == 's' then 0 else 1)
  {
    RankAtHigh(i);
    RankAtHigh(j);
  }

  /** The pairs take 0..12 in rank order; then each rank pair takes two
      consecutive indices, suited first, in the order of its slot. */
  lemma HandIndexOrder(k: nat, i: nat, j: nat)
    requires k < 13 && i < j < 13
    ensures HandIndex(PairLabel(k)) == k
    ensures HandIndex(NonPairLabel(i, j, 's')) == 13 + 2 * PairSlot(i, j)
    ensures HandIndex(NonPairLabel(i, j, 'o')) == HandIndex(NonPairLabel(i, j, 's')) + 1
  {
    PairIndex(k);
    NonPairIndex(i, j, 's');
    NonPairIndex(i, j, 'o');
  }

  lemma PairSlotInjective(i: nat, j: nat, i2: nat, j2: nat)
    requires i < j < 13 && i2 < j2 < 13 && PairSlot(i, j) == PairSlot(i2, j2)
    ensures i == i2 && j == j2
  {
    if i < i2 {
      RowStartGrows(i, i2);
    } else if i2 < i {
      RowStartGrows(i2, i);
    }
  }

  /** No two labels share an index. */
  lemma HandIndexInjective(a: string, b: string)
    requires IsHandLabel(a) && IsHandLabel(b) && HandIndex(a) == HandIndex(b)
    ensures a == b
  {
    if |a| == 2 {
      assert RankChar(Idx(a[0])) == a[0] && RankChar(Idx(b[0])) == b[0];
      SameChars(a, b);
    } else {
      NonPairValue(a);
      NonPairValue(b);
      TwiceInjective(PairSlot(Idx(a[0]), Idx(a[1])), PairSlot(Idx(b[0]), Idx(b[1])), a[2] == 'o', b[2] == 'o');
      PairSlotInjective(Idx(a[0]), Idx(a[1]), Idx(b[0]), Idx(b[1]));
      assert RankChar(Idx(a[0])) == a[0] && RankChar(Idx(b[0])) == b[0];
      assert RankChar(Idx(a[1])) == a[1] && RankChar(Idx(b[1])) == b[1];
      SameChars(a, b);
    }
  }

  lemma NonPairValue(a: string)
    requires IsHandLabel(a) && |a| == 3
    ensures HandIndex(a) == 13 + 2 * PairSlot(Idx(a[0]), Idx(a[1])) + (if a[2] == 'o' then 1 else 0)
  {
  }

  lemma SameChars(a: string, b: string)
    requires |a| == |b| && forall k :: 0 <= k < |a| ==> a[k] == b[k]
    ensures a == b
  {
  }

  lemma TwiceInjective(x: nat, y: nat, a: bool, b: bool)
    requires 2 * x + (if a then 1 else 0) == 2 * y + (if b then 1 else 0)
    ensures x == y && a == b
  {
  }

  /** The row holding slot `p`. */
  lemma {:induction false} FindRow(p: nat, i: nat) returns (r: nat)
    requires i <= 12 && RowStart(i) <= p < 78
    ensures i <= r <= 12 && RowStart(r) <= p < RowStart(r) + (12 - r)
    decreases 12 - i
  {
    assert RowStart(13) == RowStart(12) == 78;
    if p < RowStart(i) + (12 - i) {
      r := i;
    } else {
      r := FindRow(p, i + 1);
    }
  }

  /** Every slot 0..77 is the slot of some rank pair. */
  lemma SlotOnto(p: nat) returns (i: nat, j: nat)
    requires p < 78
    ensures i < j < 13 && PairSlot(i, j) == p
  {
    i := FindRow(p, 0);
    j := p - RowStart(i) + i + 1;
  }

  /** Every index 0..168 is the index of some label. */
  lemma HandIndexOnto(n: nat) returns (l: string)
    requires n < 169
    ensures IsHandLabel(l) && HandIndex(l) == n
  {
    if n < 13 {
      PairIndex(n);
      l := PairLabel(n);
    } else {
      l := NonPairOnto(n);
    }
  }

  lemma NonPairOnto(n: nat) returns (l: string)
    requires 13 <= n < 169
    ensures IsHandLabel(l) && HandIndex(l) == n
  {
    var p, odd := Halve(n - 13);
    var i, j := SlotOnto(p);
    var c := if odd then 'o' else 's';
    NonPairIndex(i, j, c);
    l := NonPairLabel(i, j, c);
  }

  lemma Halve(m: nat) returns (p: nat, odd: bool)
    ensures m == 2 * p + (if odd then 1 else 0)
  {
    p := m / 2;
    odd := m % 2 == 1;
  }

  /** `CardUtils.get_hand_index`: a counter walked through the pairs and
      then through every rank pair, suited before offsuit; an unknown label
      gives 0. */
  method GetHandIndex(hand: string) returns (idx: nat)
    ensures idx == HandIndex(hand)
  {
    idx := 0;
    var k := 0;
    while k < 13
      invariant k <= 13 && idx == k
      invariant forall m :: 0 <= m < k ==> hand != PairLabel(m)
    {
      if PairLabel(k) == hand {
        PairIndex(k);
        return;
      }
      idx := idx + 1;
      k := k + 1;
    }
    var i := 0;
    while i < 13
      invariant i <= 13 && idx == 13 + 2 * RowStart(i)
      invariant forall m :: 0 <= m < 13 ==> hand != PairLabel(m)
      invariant forall i', j' :: 0 <= i' < i && i' < j' < 13 ==>
        hand != NonPairLabel(i', j', 's') && hand != NonPairLabel(i', j', 'o')
    {
      var found;
      found, idx := ScanRow(hand, i, idx);
      if found {
        return;
      }
      i := i + 1;
    }
    NotAHandLabel(hand);
    return 0;
  }

  /** The inner loop of `get_hand_index`: the rank pairs (i, j) for j > i. */
  method ScanRow(hand: string, i: nat, idx0: nat) returns (found: bool, idx: nat)
    requires i < 13 && idx0 == 13 + 2 * RowStart(i)
    ensures found ==> idx == HandIndex(hand)
    ensures !found ==> idx == 13 + 2 * RowStart(i + 1)
    ensures !found ==> forall j' :: i < j' < 13 ==>
      hand != NonPairLabel(i, j', 's') && hand != NonPairLabel(i, j', 'o')
  {
    idx := idx0;
    var j := i + 1;
    while j < 13
      invariant i + 1 <= j <= 13 && idx == 13 + 2 * (RowStart(i) + (j - i - 1))
      invariant forall j' :: i < j' < j ==>
        hand != NonPairLabel(i, j', 's') && hand != NonPairLabel(i, j', 'o')
    {
      if NonPairLabel(i, j, 's') == hand {
        NonPairIndex(i, j, 's');
        return true, idx;
      }
      idx := idx + 1;
      if NonPairLabel(i, j, 'o') == hand {
        NonPairIndex(i, j, 'o');
        return true, idx;
      }
      idx := idx + 1;
      j := j + 1;
    }
    return false, idx;
  }

  /** A label found neither among the pairs nor among the rank pairs is unknown. */
  lemma NotAHandLabel(hand: string)
    requires forall m :: 0 <= m < 13 ==> hand != PairLabel(m)
    requires forall i', j' :: 0 <= i' < 13 && i' < j' < 13 ==>
      hand != NonPairLabel(i', j', 's') && hand != NonPairLabel(i', j', 'o')
    ensures !IsHandLabel(hand) && HandIndex(hand) == 0
  {
    KnownLabel(hand);
  }

  /** A hand label is one of the labels `get_hand_index` walks through. */
  lemma KnownLabel(hand: string)
    ensures IsHandLabel(hand) && |hand| == 2 ==> hand == PairLabel(Idx(hand[0]))
    ensures IsHandLabel(hand) && |hand| == 3 ==> hand == NonPairLabel(Idx(hand[0]), Idx(hand[1]), hand[2])
  {
    if IsHandLabel(hand) && |hand| == 2 {
      assert hand == PairLabel(Idx(hand[0]));
    } else if IsHandLabel(hand) && |hand| == 3 {
      assert hand == NonPairLabel(Idx(hand[0]), Idx(hand[1]), hand[2]);
    }
  }

  function CountPairs(labels: seq<string>): nat {
    if |labels| == 0 then 0
    else CountPairs(labels[..|labels| - 1]) + (if |labels[|labels| - 1]| == 2 then 1 else 0)
  }

  /** Labels of the rows `i + 1 .. 12` of `_generate_all_labels`: row `i`
      holds one pair and `i` suited/offsuit pairs. */
  function RowsDone(i: int): nat
    requires -1 <= i <= 12
    decreases 12 - i
  {
    if i == 12 then 0 else RowsDone(i + 1) + 1 + 2 * (i + 1)
  }

  lemma AllRowsDone()
    ensures RowsDone(-1) == 169
  {
  }

  /** A label `_generate_all_labels` produces: a pair, or a non-pair written low first. */
  predicate LowFirst(l: string) {
    (|l| == 2 && IsHandLabel(l)) || (|l| == 3 && IsHandLabel([l[1], l[0], l[2]]))
  }

  /** Every label so far is a pair or a low-first non-pair, which `get_hand_index` maps to 0. */
  predicate AllLowFirst(labels: seq<string>) {
    forall k :: 0 <= k < |labels| ==> LowFirst(labels[k]) && (|labels[k]| == 3 ==> HandIndex(labels[k]) == 0)
  }

  /** `_generate_all_labels`: 169 labels, 13 of them pairs. Its non-pair
      labels put the lower rank first, so none of them is a label
      `get_hand_index` knows: each maps to index 0. */
  method GenerateAllLabels() returns (labels: seq<string>)
    ensures |labels| == 169 && CountPairs(labels) == 13
    ensures forall k :: 0 <= k < |labels| ==> LowFirst(labels[k])
    ensures forall k :: 0 <= k < |labels| && |labels[k]| == 3 ==> HandIndex(labels[k]) == 0
  {
    labels := [];
    var i := 12;
    while i >= 0
      invariant -1 <= i <= 12 && |labels| == RowsDone(i) && CountPairs(labels) == 12 - i
      invariant AllLowFirst(labels)
    {
      var j := i;
      while j >= 0
        invariant -1 <= j <= i
        invariant |labels| == RowsDone(i) + (if j == i then 0 else 2 * (i - j) - 1)
        invariant CountPairs(labels) == 12 - i + (if j == i then 0 else 1)
        invariant AllLowFirst(labels)
      {
        labels := AppendLow(labels, i, j);
        j := j - 1;
      }
      i := i - 1;
    }
    assert i == -1;
    AllRowsDone();
    assert |labels| == 169;
    assert CountPairs(labels) == 13;
  }

  /** One step of the inner loop of `_generate_all_labels`. */
  method AppendLow(labels: seq<string>, i: nat, j: nat) returns (r: seq<string>)
    requires j <= i <= 12
    ensures i == j ==> r == labels + [PairLabel(i)]
    ensures i != j ==> r == labels + [[RankChar(i), RankChar(j), 's'], [RankChar(i), RankChar(j), 'o']]
    ensures CountPairs(r) == CountPairs(labels) + (if i == j then 1 else 0)
    ensures AllLowFirst(labels) ==> AllLowFirst(r)
  {
    if i == j {
      PairIndex(i);
      r := labels + [[RankChar(i), RankChar(j)]];
      assert r[..|r| - 1] == labels;
    } else {
      var s := [RankChar(i), RankChar(j), 's'];
      var o := [RankChar(i), RankChar(j), 'o'];
      LowFirstLabel(i, j, 's');
      LowFirstLabel(i, j, 'o');
      r := labels + [s, o];
      assert r[..|r| - 1] == labels + [s];
      assert r[..|r| - 1][..|labels|] == labels;
    }
  }

  /** A non-pair written low rank first is the swap of a known label and is itself unknown. */
  lemma LowFirstLabel(i: nat, j: nat, suffix: char)
    requires j < i <= 12 && (suffix == 's' || suffix == 'o')
    ensures LowFirst([RankChar(i), RankChar(j), suffix]) && HandIndex([RankChar(i), RankChar(j), suffix]) == 0
  {
    NonPairIndex(j, i, suffix);
    assert [RankChar(j), RankChar(i), suffix] == NonPairLabel(j, i, suffix);
    RankAtHigh(i);
    RankAtHigh(j);
    assert !IsHandLabel([RankChar(i), RankChar(j), suffix]);
  }

  // ---------------------------------------------------------------
  // Preflop table, version 1
  // ---------------------------------------------------------------

  /** The row one record stores: its counts over their total, or all-fold
      when every count is zero. */
  function V1Weights(pf: nat, pc: nat, pr: nat): (w: Weights)
    ensures Normalised(w)
    ensures pf + pc + pr == 0 ==> w == Weights(1.0, 0.0, 0.0)
    ensures pf + pc + pr > 0 ==> var t := (pf + pc + pr) as real;
      w.fold * t == pf as real && w.call * t == pc as real && w.raise * t == pr as real
  {
    var t := pf + pc + pr;
    if t > 0 then
      ScaleToOne(pf as real, pc as real, pr as real);
      Weights(pf as real / t as real, pc as real / t as real, pr as real / t as real)
    else Weights(1.0, 0.0, 0.0)
  }

  /** Record `k` of a version-1 table, as the assignment `lut[hid] = row` it makes. */
  function V1Record(b: Bytes, k: nat): (int, Weights)
    requires 9 + 8 * (k + 1) <= |b|
  {
    var r := Raw8(b, k);
    (r.0, V1Weights(r.1, r.2, r.3))
  }

  /** The first `n` records. */
  function V1Records(b: Bytes, n: nat): (recs: seq<(int, Weights)>)
    requires 9 + 8 * n <= |b|
    ensures |recs| == n
    ensures forall k :: 0 <= k < n ==> recs[k] == V1Record(b, k)
  {
    if n == 0 then [] else V1Records(b, n - 1) + [V1Record(b, n - 1)]
  }

  /** The record count of the nine-byte header: magic, `<H` version, one type byte, `<H` count. */
  function V1Count(b: Bytes): nat
    requires |b| >= 9
  {
    U16(b, 7)
  }

  /** A file `_load_gtob_preflop_v1` accepts: the magic, a full header and every record present. */
  predicate V1WellFormed(b: Bytes) {
    HasMagic(b) && |b| >= 9 && 9 + 8 * V1Count(b) <= |b|
  }

  /** `_load_gtob_preflop_v1` on the file's bytes. A wrong magic returns
      {}; so does a short read anywhere (the `struct.error` its `except`
      swallows), even after records were stored. */
  function DecodePreflopV1(b: Bytes): map<int, Weights> {
    if V1WellFormed(b) then MapOf(V1Records(b, V1Count(b))) else map[]
  }

  /** The loader's loop. */
  method LoadPreflopV1(b: Bytes) returns (lut: map<int, Weights>)
    ensures lut == DecodePreflopV1(b)
  {
    if !HasMagic(b) || |b| < 9 {
      return map[];
    }
    var count := b[7] as int + 256 * b[8] as int;
    assert count == V1Count(b);
    lut := map[];
    var k := 0;
    while k < count
      invariant k <= count && 9 + 8 * k <= |b|
      invariant lut == MapOf(V1Records(b, k))
    {
      if |b| < 9 + 8 * (k + 1) {
        return map[];
      }
      var hid, row := ReadV1Record(b, k);
      V1Step(b, k, hid, row, lut);
      lut := lut[hid := row];
      k := k + 1;
    }
    V1Complete(b, lut);
  }

  lemma V1Step(b: Bytes, k: nat, hid: int, row: Weights, lut: map<int, Weights>)
    requires 9 + 8 * (k + 1) <= |b| && (hid, row) == V1Record(b, k)
    requires lut == MapOf(V1Records(b, k))
    ensures lut[hid := row] == MapOf(V1Records(b, k + 1))
  {
    MapOfSnoc(V1Records(b, k), hid, row);
  }

  lemma V1Complete(b: Bytes, lut: map<int, Weights>)
    requires HasMagic(b) && |b| >= 9 && 9 + 8 * V1Count(b) <= |b|
    requires lut == MapOf(V1Records(b, V1Count(b)))
    ensures lut == DecodePreflopV1(b)
  {
  }

  /** One iteration's `struct.unpack("<HHHH", ...)` and row. */
  method ReadV1Record(b: Bytes, k: nat) returns (hid: int, row: Weights)
    requires 9 + 8 * (k + 1) <= |b|
    ensures (hid, row) == V1Record(b, k)
  {
    var p := 9 + 8 * k;
    hid := b[p] as int + 256 * b[p + 1] as int;
    var pf := b[p + 2] as int + 256 * b[p + 3] as int;
    var pc := b[p + 4] as int + 256 * b[p + 5] as int;
    var pr := b[p + 6] as int + 256 * b[p + 7] as int;
    var total := pf + pc + pr;
    if total > 0 {
      row := Weights(pf as real / total as real, pc as real / total as real, pr as real / total as real);
    } else {
      row := Weights(1.0, 0.0, 0.0);
    }
  }

  /** Only a well-formed file gives a non-empty table, and every row it
      stores is a distribution keyed by a 16-bit hid. */
  lemma DecodeV1Rows(b: Bytes, h: int)
    requires h in DecodePreflopV1(b)
    ensures V1WellFormed(b)
    ensures 0 <= h < 0x1_0000 && Normalised(DecodePreflopV1(b)[h])
  {
    var recs := V1Records(b, V1Count(b));
    MapOfFrom(recs, h);
    var k :| 0 <= k < |recs| && recs[k] == (h, MapOf(recs)[h]);
    assert recs[k] == V1Record(b, k);
  }

  /** A well-formed file stores exactly the hids of its records. */
  lemma DecodeV1Keys(b: Bytes, h: int)
    requires V1WellFormed(b)
    ensures h in DecodePreflopV1(b) <==> exists k :: 0 <= k < V1Count(b) && Raw8(b, k).0 == h
  {
    var recs := V1Records(b, V1Count(b));
    MapOfKeys(recs, h);
    if exists k :: 0 <= k < V1Count(b) && Raw8(b, k).0 == h {
      var k :| 0 <= k < V1Count(b) && Raw8(b, k).0 == h;
      assert recs[k].0 == h;
    }
  }

  /** A repeated hid keeps the row of its last record. */
  lemma DecodeV1Last(b: Bytes, k: nat)
    requires V1WellFormed(b) && k < V1Count(b)
    requires forall m :: k < m < V1Count(b) ==> Raw8(b, m).0 != Raw8(b, k).0
    ensures var r := Raw8(b, k);
      r.0 in DecodePreflopV1(b) && DecodePreflopV1(b)[r.0] == V1Weights(r.1, r.2, r.3)
  {
    var recs := V1Records(b, V1Count(b));
    forall m | k < m < |recs| ensures recs[m].0 != recs[k].0 {
      assert recs[m] == V1Record(b, m);
    }
    MapOfLast(recs, k);
  }

  // ---------------------------------------------------------------
  // Decision helpers
  // ---------------------------------------------------------------

  /** The bet sizes `_detect_sizing_distortion` treats as standard, as fractions of the pot. */
  const Buckets: seq<real> := [0.33, 0.5, 0.67, 1.0, 1.5, 2.0]

  function Abs(x: real): real {
    if x < 0.0 then -x else x
  }

  /** `min(abs(x - b) for b in bs)` */
  function MinDistance(x: real, bs: seq<real>): (d: real)
    requires |bs| > 0
    ensures forall k :: 0 <= k < |bs| ==> d <= Abs(x - bs[k])
    ensures exists k :: 0 <= k < |bs| && d == Abs(x - bs[k])
  {
    if |bs| == 1 then Abs(x - bs[0])
    else
      var init := bs[..|bs| - 1];
      var d := MinDistance(x, init);
      assert forall k :: 0 <= k < |init| ==> init[k] == bs[k];
      var e := Abs(x - bs[|bs| - 1]);
      if e < d then e else d
  }

  /** `_detect_sizing_distortion`: how far a bet is from every standard
      size, zero within 0.1 of one, and otherwise above one half. */
  function DetectSizingDistortion(betRatio: real): (r: real)
    ensures 0.0 <= r <= 1.0
    ensures r == 0.0 <==> exists k :: 0 <= k < |Buckets| && Abs(betRatio - Buckets[k]) <= 0.1
    ensures r > 0.0 ==> r > 0.5
  {
    var d := MinDistance(betRatio, Buckets);
    if d > 0.1 then (if d / 0.2 < 1.0 then d / 0.2 else 1.0) else 0.0
  }

  /** What `_analyze_sizing_pattern` returns. */
  datatype SizingPattern = SizingPattern(confidence: real, bias: string)

  /** `_analyze_sizing_pattern`: both of its branches report no confidence. */
  function AnalyzeSizingPattern(historyLength: nat): (p: SizingPattern)
    ensures p.confidence == 0.0
  {
    if historyLength < 10 then SizingPattern(0.0, "neutral") else SizingPattern(0.0, "neutral")
  }

  /** The sizing-pattern term of the exploit adjustment, which is never
      switched on: no pattern reaches confidence 0.7. */
  function PatternAdjustment(handsPlayed: nat, historyLength: nat): (a: real)
    ensures a == 0.0
  {
    var p := AnalyzeSizingPattern(historyLength);
    if handsPlayed >= 100 && p.confidence > 0.7 then (if p.bias == "value" then -0.15 else 0.15)
    else 0.0
  }

  /** `to_call / pot_before`, or 0 when nothing was in the pot before the bet. */
  function BetRatio(pot: real, toCall: real): real {
    var potBefore := pot - toCall;
    if potBefore > 0.0 then toCall / potBefore else 0.0
  }

  /** The adjustment `_apply_lut_with_exploit` moves from fold to call. */
  function ExploitAdjustment(betRatio: real, handsPlayed: nat, historyLength: nat): real {
    var distortion := DetectSizingDistortion(betRatio);
    (if distortion > 0.5 then (if 0.4 < betRatio < 0.6 then 0.2 else -0.15) else 0.0)
      + PatternAdjustment(handsPlayed, historyLength)
  }

  /** The +0.2 branch is dead: a ratio within 0.1 of the 0.5 bucket has
      no distortion, so the adjustment is -0.15 on an off-size bet and 0
      otherwise. */
  lemma AdjustmentTightensOnly(betRatio: real, handsPlayed: nat, historyLength: nat)
    ensures ExploitAdjustment(betRatio, handsPlayed, historyLength) ==
      (if DetectSizingDistortion(betRatio) > 0.0 then -0.15 else 0.0)
  {
    if 0.4 < betRatio < 0.6 {
      assert Abs(betRatio - Buckets[1]) <= 0.1;
    }
  }

  /** `min(a, b)` and `max(a, b)` */
  function Min(a: real, b: real): real {
    if a <= b then a else b
  }

  function Max(a: real, b: real): real {
    if a >= b then a else b
  }

  /** The tail of `_apply_lut_with_exploit` as written: `adjustment` moves
      from fold to call, the call weight is capped at 1 but not floored at
      0, and the triple is rescaled when its sum is positive. */
  function Reweight(base: Weights, adjustment: real): (r: Weights)
    ensures Normalised(base) ==> r.fold + r.call + r.raise == 1.0
  {
    var f := Max(0.0, base.fold - adjustment);
    var c := Min(1.0, base.call + adjustment);
    var s := f + c + base.raise;
    if s > 0.0 then
      assert f / s + c / s + base.raise / s == s / s;
      Weights(f / s, c / s, base.raise / s)
    else base
  }

  /** `_apply_lut_with_exploit` as written: a table row comes back
      unchanged when nothing is to be called, and otherwise still sums
      to 1, but its call weight can go negative. */
  function ApplyLutWithExploit(base: Weights, pot: real, toCall: real, handsPlayed: nat, historyLength: nat): (r: Weights)
    ensures toCall <= 0.0 ==> r == base
    ensures Normalised(base) ==> r.fold + r.call + r.raise == 1.0
    ensures Normalised(base) && toCall > 0.0 ==>
      r == if DetectSizingDistortion(BetRatio(pot, toCall)) > 0.0
           then Weights(base.fold + 0.15, base.call - 0.15, base.raise) else base
  {
    if toCall <= 0.0 then base
    else
      var adjustment := ExploitAdjustment(BetRatio(pot, toCall), handsPlayed, historyLength);
      AdjustmentTightensOnly(BetRatio(pot, toCall), handsPlayed, historyLength);
      ReweightShift(base, adjustment);
      Reweight(base, adjustment)
  }

  /** On a distribution the shift keeps the total at 1, so nothing is
      rescaled: 0.15 moves from call to fold, whatever the call weight. */
  lemma ReweightShift(base: Weights, adjustment: real)
    ensures Normalised(base) && (adjustment == 0.0 || adjustment == -0.15) ==>
      Reweight(base, adjustment) ==
        if adjustment == 0.0 then base else Weights(base.fold + 0.15, base.call - 0.15, base.raise)
  {
    if Normalised(base) && (adjustment == 0.0 || adjustment == -0.15) {
      var f := Max(0.0, base.fold - adjustment);
      var c := Min(1.0, base.call + adjustment);
      assert f == base.fold - adjustment && c == base.call + adjustment;
      assert f + c + base.raise == 1.0;
    }
  }

  /** An all-fold row facing a bet three times the pot before it comes out
      with a negative call weight. */
  lemma NegativeCallWeight()
    ensures ApplyLutWithExploit(Weights(1.0, 0.0, 0.0), 4.0, 3.0, 0, 0) == Weights(1.15, -0.15, 0.0)
  {
    assert BetRatio(4.0, 3.0) == 3.0;
    assert MinDistance(3.0, Buckets) == 1.0;
    assert DetectSizingDistortion(3.0) == 1.0;
  }

  /** The same tail with the call weight clamped to [0, 1]. */
  function ClampedReweight(base: Weights, adjustment: real): (r: Weights)
    ensures Normalised(base) && (adjustment == 0.0 || adjustment == -0.15) ==>
      Normalised(r) && r.fold >= base.fold
    ensures Normalised(base) && adjustment == 0.0 ==> r == base
  {
    var f := Max(0.0, base.fold - adjustment);
    var c := Max(0.0, Min(1.0, base.call + adjustment));
    var s := f + c + base.raise;
    if s > 0.0 then
      ClampedShift(base, adjustment, f, c);
      Weights(f / s, c / s, base.raise / s)
    else base
  }

  /** `_apply_lut_with_exploit` with the call weight clamped to [0, 1], as
      its probabilities need: a distribution stays a distribution, is
      unchanged unless the bet is off-size, and then only gains fold weight. */
  function ApplyLutClamped(base: Weights, pot: real, toCall: real, handsPlayed: nat, historyLength: nat): (r: Weights)
    ensures toCall <= 0.0 ==> r == base
    ensures Normalised(base) ==> Normalised(r) && r.fold >= base.fold
    ensures Normalised(base) && DetectSizingDistortion(BetRatio(pot, toCall)) == 0.0 ==> r == base
  {
    if toCall <= 0.0 then base
    else
      AdjustmentTightensOnly(BetRatio(pot, toCall), handsPlayed, historyLength);
      ClampedReweight(base, ExploitAdjustment(BetRatio(pot, toCall), handsPlayed, historyLength))
  }

  /** The clamp changes the result exactly when the shift would push the
      call weight below zero: on every other input the corrected and the
      as-written adjustment agree. */
  lemma ClampAgrees(base: Weights, pot: real, toCall: real, handsPlayed: nat, historyLength: nat)
    requires Normalised(base)
    ensures ApplyLutClamped(base, pot, toCall, handsPlayed, historyLength) ==
            ApplyLutWithExploit(base, pot, toCall, handsPlayed, historyLength) <==>
      toCall <= 0.0 || DetectSizingDistortion(BetRatio(pot, toCall)) == 0.0 || base.call >= 0.15
  {
    if toCall > 0.0 && DetectSizingDistortion(BetRatio(pot, toCall)) > 0.0 {
      AdjustmentTightensOnly(BetRatio(pot, toCall), handsPlayed, historyLength);
      if base.call >= 0.15 {
        ClampedShiftExact(base);
      }
    }
  }

  /** Off-size, a call weight of at least 0.15 needs no clamp. */
  lemma ClampedShiftExact(base: Weights)
    requires Normalised(base) && base.call >= 0.15
    ensures ClampedReweight(base, -0.15) == Weights(base.fold + 0.15, base.call - 0.15, base.raise)
  {
    var f := Max(0.0, base.fold + 0.15);
    var c := Max(0.0, Min(1.0, base.call - 0.15));
    assert f == base.fold + 0.15 && c == base.call - 0.15;
    assert f + c + base.raise == 1.0;
  }

  /** The rescaled clamped triple of a distribution. */
  lemma ClampedShift(base: Weights, adjustment: real, f: real, c: real)
    requires f == Max(0.0, base.fold - adjustment) && c == Max(0.0, Min(1.0, base.call + adjustment))
    requires f + c + base.raise > 0.0
    ensures var s := f + c + base.raise; var w := Weights(f / s, c / s, base.raise / s);
      Normalised(base) && (adjustment == 0.0 || adjustment == -0.15) ==>
        Normalised(w) && w.fold >= base.fold && (adjustment == 0.0 ==> w == base)
  {
    var s := f + c + base.raise;
    if Normalised(base) && (adjustment == 0.0 || adjustment == -0.15) {
      ScaleToOne(f, c, base.raise);
      if adjustment == 0.0 {
        assert f == base.fold && c == base.call && s == 1.0;
      } else {
        assert f == base.fold + 0.15 && 0.0 < s <= 1.15;
        ShareGrows(base.fold, s);
      }
    }
  }

  /** Adding 0.15 to a share and dividing by a total of at most 1.15 does not shrink it. */
  lemma ShareGrows(x: real, s: real)
    requires 0.0 <= x <= 1.0 && 0.0 < s <= 1.15
    ensures (x + 0.15) / s >= x
  {
    MulMono(x, s, 1.15);
    assert x * 1.15 <= x + 0.15;
    DivAtLeast(x + 0.15, s, x);
  }

  lemma MulMono(a: real, x: real, y: real)
    requires a >= 0.0 && x <= y
    ensures a * x <= a * y
  {
  }

  lemma DivAtLeast(f: real, s: real, a: real)
    requires s > 0.0 && f >= a * s
    ensures f / s >= a
  {
  }

  /** `_heuristic_action` with the Monte Carlo equity as a parameter:
      facing a bet it calls exactly when the equity beats the pot odds,
      otherwise it raises exactly when the equity exceeds 0.75. */
  function HeuristicAction(equity: real, pot: real, toCall: real): (w: Weights)
    requires toCall > 0.0 ==> pot + toCall != 0.0
    ensures Normalised(w) && (w.fold == 1.0 || w.call == 1.0 || w.raise == 1.0)
    ensures toCall > 0.0 ==> w.raise == 0.0 && (w.call == 1.0 <==> equity > toCall / (pot + toCall))
    ensures toCall <= 0.0 ==> w.fold == 0.0 && (w.raise == 1.0 <==> equity > 0.75)
  {
    if toCall > 0.0 then
      if equity > toCall / (pot + toCall) then Weights(0.0, 1.0, 0.0) else Weights(1.0, 0.0, 0.0)
    else if equity > 0.75 then Weights(0.0, 0.0, 1.0)
    else Weights(0.0, 1.0, 0.0)
  }

  /** Fold, call, raise as 0, 1, 2. */
  function Aggression(w: Weights): nat {
    if w.raise == 1.0 then 2 else if w.call == 1.0 then 1 else 0
  }

  /** More equity never makes the heuristic less aggressive. */
  lemma HeuristicMonotone(e1: real, e2: real, pot: real, toCall: real)
    requires e1 <= e2 && (toCall > 0.0 ==> pot + toCall != 0.0)
    ensures Aggression(HeuristicAction(e1, pot, toCall)) <= Aggression(HeuristicAction(e2, pot, toCall))
  {
  }

  // ---------------------------------------------------------------
  // Strategy state
  // ---------------------------------------------------------------

  /** `p.get("call", 0.0) + p.get("raise", 0.0)` for the row of hid `i`, 0 without one. */
  function PlayWeight(lut: map<int, Weights>, i: int): real {
    if i in lut then lut[i].call + lut[i].raise else 0.0
  }

  function PlayWeights(lut: map<int, Weights>): (w: seq<real>)
    ensures |w| == 169 && forall i :: 0 <= i < 169 ==> w[i] == PlayWeight(lut, i)
  {
    seq(169, i => PlayWeight(lut, i))
  }

  /** `my_weights` after `_initialize_preflop_weights`: the play weights,
      divided by their sum when that is positive. */
  function InitialRange(lut: map<int, Weights>): (w: seq<real>)
    ensures |w| == 169
  {
    var p := PlayWeights(lut);
    var s := Sum(p);
    if s > 0.0 then seq(169, i requires 0 <= i < 169 => p[i] / s) else p
  }

  /** Every table row is a distribution. */
  predicate RowsNormalised(lut: map<int, Weights>) {
    forall h :: h in lut ==> Normalised(lut[h])
  }

  /** Over a table of distributions the initial range is a distribution
      over the 169 hands, or all zero when no hand is ever played. */
  lemma InitialRangeFacts(lut: map<int, Weights>)
    requires RowsNormalised(lut)
    ensures forall i :: 0 <= i < 169 ==> 0.0 <= InitialRange(lut)[i] <= 1.0
    ensures Sum(PlayWeights(lut)) > 0.0 ==> Sum(InitialRange(lut)) == 1.0
    ensures Sum(PlayWeights(lut)) <= 0.0 ==> forall i :: 0 <= i < 169 ==> InitialRange(lut)[i] == 0.0
  {
    var p := PlayWeights(lut);
    var s := Sum(p);
    SumNonNegative(p);
    forall i | 0 <= i < 169 ensures 0.0 <= p[i] <= s {
      SumBoundsTerm(p, i);
    }
    if s > 0.0 {
      var w := InitialRange(lut);
      SumScaled(p, w, s);
      forall i | 0 <= i < 169 ensures w[i] <= 1.0 {
        DivAtMostOne(p[i], s);
      }
    }
  }

  lemma DivAtMostOne(x: real, s: real)
    requires 0.0 <= x <= s && s > 0.0
    ensures 0.0 <= x / s <= 1.0
  {
  }

  /** `self.preflop_lut.get(hid, {"fold": 1.0, "call": 0.0, "raise": 0.0})` */
  function PreflopBase(lut: map<int, Weights>, hid: int): (w: Weights)
    ensures RowsNormalised(lut) ==> Normalised(w)
  {
    if hid in lut then lut[hid] else Weights(1.0, 0.0, 0.0)
  }

  /** The preflop branch of `get_action` once its counter is updated: the
      hand's label and index, its table row, and the exploit adjustment
      (with the call weight clamped, see `ApplyLutClamped`). A malformed
      hole card raises as `get_hand_label` does. */
  function PreflopDecision(lut: map<int, Weights>, hole: seq<string>, pot: real, toCall: real, handsPlayed: nat)
    : (r: Result<Weights, LabelError>)
    ensures r.Err? <==> GetHandLabel(hole).Err?
    ensures r.Err? ==> r.error == GetHandLabel(hole).error
    ensures r.Ok? && RowsNormalised(lut) ==> Normalised(r.value)
    ensures r.Ok? && toCall <= 0.0 ==> r.value == PreflopBase(lut, HandIndex(GetHandLabel(hole).value))
  {
    match GetHandLabel(hole)
    case Err(e) => Err(e)
    case Ok(l) => Ok(ApplyLutClamped(PreflopBase(lut, HandIndex(l)), pot, toCall, handsPlayed, 0))
  }

  /** The two passes of `_initialize_preflop_weights` over the 169-slot
      weight array: fill in the play weights, then divide by their sum
      when it is positive. */
  method FillRange(a: array<real>, lut: map<int, Weights>)
    requires a.Length == 169
    modifies a
    ensures a[..] == InitialRange(lut)
  {
    for i := 0 to 169
      invariant forall m :: 0 <= m < i ==> a[m] == PlayWeight(lut, m)
    {
      a[i] := PlayWeight(lut, i);
    }
    assert a[..] == PlayWeights(lut);
    var s := Sum(a[..]);
    if s > 0.0 {
      ghost var p := a[..];
      for i := 0 to 169
        invariant forall m :: 0 <= m < i ==> a[m] == p[m] / s
        invariant forall m :: i <= m < 169 ==> a[m] == p[m]
      {
        a[i] := a[i] / s;
      }
    }
  }

  /** The part of `RobustMashupStrategy` its decisions read and write. The
      opponent's sizing history is never appended to, so it is not kept. */
  class Bot {
    var preflopLut: map<int, Weights>
    var totalHandsPlayed: nat
    var myWeights: array<real>
    var canonicalLabels: seq<string>
    var preflopInitialized: bool

    predicate Valid()
      reads this
    {
      myWeights.Length == 169 && |canonicalLabels| == 169 && RowsNormalised(preflopLut)
    }

    /** `__init__`, given the table file's bytes or `None` when it does not exist. */
    constructor(lutFile: Option<Bytes>)
      ensures Valid() && fresh(myWeights)
      ensures preflopLut == (if lutFile.Some? then DecodePreflopV1(lutFile.value) else map[])
      ensures totalHandsPlayed == 0 && !preflopInitialized
      ensures forall i :: 0 <= i < 169 ==> myWeights[i] == 1.0 / 169.0
      ensures CountPairs(canonicalLabels) == 13
      ensures forall k :: 0 <= k < 169 ==> LowFirst(canonicalLabels[k])
    {
      var labels := GenerateAllLabels();
      var lut := map[];
      if lutFile.Some? {
        lut := LoadPreflopV1(lutFile.value);
      }
      forall h | h in lut ensures Normalised(lut[h]) {
        DecodeV1Rows(lutFile.value, h);
      }
      preflopLut := lut;
      totalHandsPlayed := 0;
      myWeights := new real[169](_ => 1.0 / 169.0);
      canonicalLabels := labels;
      preflopInitialized := false;
    }

    /** `_initialize_preflop_weights` */
    method InitializePreflopWeights()
      requires Valid()
      modifies this, myWeights
      ensures Valid() && preflopInitialized
      ensures myWeights == old(myWeights) && myWeights[..] == InitialRange(preflopLut)
      ensures preflopLut == old(preflopLut) && totalHandsPlayed == old(totalHandsPlayed)
      ensures canonicalLabels == old(canonicalLabels)
    {
      FillRange(myWeights, preflopLut);
      preflopInitialized := true;
    }

    /** `get_action` with the Monte Carlo equity of the postflop branch as
        a parameter. Preflop, the range is initialised once and the hand
        counter goes up, even when the hole cards turn out malformed, and
        the table row goes through the clamped adjustment of
        `ApplyLutClamped`; postflop nothing changes. */
    method GetAction(street: string, hole: seq<string>, pot: real, toCall: real, equity: real)
      returns (r: Result<Weights, LabelError>)
      requires Valid()
      requires street != "preflop" && toCall > 0.0 ==> pot + toCall != 0.0
      modifies this, myWeights
      ensures Valid() && myWeights == old(myWeights)
      ensures preflopLut == old(preflopLut) && canonicalLabels == old(canonicalLabels)
      ensures street != "preflop" ==> r == Ok(HeuristicAction(equity, pot, toCall))
      ensures street != "preflop" ==>
        totalHandsPlayed == old(totalHandsPlayed) && preflopInitialized == old(preflopInitialized) && myWeights[..] == old(myWeights[..])
      ensures street == "preflop" ==> totalHandsPlayed == old(totalHandsPlayed) + 1 && preflopInitialized
      ensures street == "preflop" && old(preflopInitialized) ==> myWeights[..] == old(myWeights[..])
      ensures street == "preflop" && !old(preflopInitialized) ==> myWeights[..] == InitialRange(preflopLut)
      ensures street == "preflop" ==> r == PreflopDecision(preflopLut, hole, pot, toCall, totalHandsPlayed)
    {
      if street == "preflop" && !preflopInitialized {
        InitializePreflopWeights();
      }
      if street == "preflop" {
        totalHandsPlayed := totalHandsPlayed + 1;
        var hand := GetHandLabel(hole);
        if hand.Err? {
          return Err(hand.error);
        }
        var hid := GetHandIndex(hand.value);
        var base := PreflopBase(preflopLut, hid);
        return Ok(ApplyLutClamped(base, pot, toCall, totalHandsPlayed, 0));
      }
      return Ok(HeuristicAction(equity, pot, toCall));
    }
  }
}
