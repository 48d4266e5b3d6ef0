/** scripts/debug_GTO.py: a third reader of the "GTOB" preflop layout
    (`load_gtob_preflop`), which lets every failure escape and scales the
    counts by 65535, and the hand-label collision check
    (`test_hash_collision`). */
module DebugGto {
  import opened Wrappers
  import opened LutBytes
  import opened Dicts
  import opened Rmball

  /** Record `k`: the hid and each count over 65535. */
  function DebugRecord(b: Bytes, k: nat): (r: (int, Weights))
    requires 9 + 8 * (k + 1) <= |b|
    ensures 0 <= r.0 < 0x1_0000 && UnitWeights(r.1)
  {
    var r := Raw8(b, k);
    (r.0, Weights(r.1 as real / 65535.0, r.2 as real / 65535.0, r.3 as real / 65535.0))
  }

  function DebugRecords(b: Bytes, n: nat): (recs: seq<(int, Weights)>)
    requires 9 + 8 * n <= |b|
    ensures |recs| == n
    ensures forall k :: 0 <= k < n ==> recs[k] == DebugRecord(b, k)
  {
    if n == 0 then [] else DebugRecords(b, n - 1) + [DebugRecord(b, n - 1)]
  }

  /** `f.read(1).decode()` of the street byte: an empty read decodes to "",
      and a lone byte is UTF-8 only below 0x80. */
  predicate StreetDecodes(b: Bytes) {
    |b| < 7 || b[6] < 0x80
  }

  /** `load_gtob_preflop` on the file's bytes, failing where the script
      raises, in the order it reads. */
  function LoadGtobPreflop(b: Bytes): (r: Result<map<int, Weights>, ReadError>)
    ensures r.Ok? <==> HasMagic(b) && |b| >= 9 && StreetDecodes(b) && 9 + 8 * U16(b, 7) <= |b|
    ensures r == Err(MagicAssertion) <==> !HasMagic(b)
    ensures r == Err(UnicodeDecodeError) <==> HasMagic(b) && |b| >= 7 && b[6] >= 0x80
  {
    if !HasMagic(b) then Err(MagicAssertion)
    else if |b| < 6 then Err(StructError)
    else if !StreetDecodes(b) then Err(UnicodeDecodeError)
    else if |b| < 9 then Err(StructError)
    else if |b| < 9 + 8 * U16(b, 7) then Err(StructError)
    else Ok(MapOf(DebugRecords(b, U16(b, 7))))
  }

  /** The script's read loop. */
  method ReadGtobPreflop(b: Bytes) returns (r: Result<map<int, Weights>, ReadError>)
    ensures r == LoadGtobPreflop(b)
  {
    if !HasMagic(b) {
      return Err(MagicAssertion);
    }
    if |b| < 6 {
      return Err(StructError);
    }
    if !StreetDecodes(b) {
      return Err(UnicodeDecodeError);
    }
    if |b| < 9 {
      return Err(StructError);
    }
    var nRec := b[7] as int + 256 * b[8] as int;
    assert nRec == U16(b, 7);
    var lut := map[];
    var k := 0;
    while k < nRec
      invariant k <= nRec && 9 + 8 * k <= |b|
      invariant lut == MapOf(DebugRecords(b, k))
    {
      var p := 9 + 8 * k;
      if |b| < p + 2 {
        return Err(StructError);
      }
      var hid := b[p] as int + 256 * b[p + 1] as int;
      if |b| < p + 8 {
        return Err(StructError);
      }
      var pf := b[p + 2] as int + 256 * b[p + 3] as int;
      var pc := b[p + 4] as int + 256 * b[p + 5] as int;
      var pr := b[p + 6] as int + 256 * b[p + 7] as int;
      var row := Weights(pf as real / 65535.0, pc as real / 65535.0, pr as real / 65535.0);
      assert (hid, row) == DebugRecord(b, k);
      DebugStep(b, k, hid, row, lut);
      lut := lut[hid := row];
      k := k + 1;
    }
    return Ok(lut);
  }

  lemma DebugStep(b: Bytes, k: nat, hid: int, row: Weights, lut: map<int, Weights>)
    requires 9 + 8 * (k + 1) <= |b| && (hid, row) == DebugRecord(b, k)
    requires lut == MapOf(DebugRecords(b, k))
    ensures lut[hid := row] == MapOf(DebugRecords(b, k + 1))
  {
    MapOfSnoc(DebugRecords(b, k), hid, row);
  }

  /** Every stored row has weights in [0, 1] and comes from a record,
      all-zero records included. */
  lemma DebugRows(b: Bytes, h: int)
    requires LoadGtobPreflop(b).Ok? && h in LoadGtobPreflop(b).value
    ensures 0 <= h < 0x1_0000 && UnitWeights(LoadGtobPreflop(b).value[h])
    ensures exists k :: 0 <= k < U16(b, 7) && DebugRecord(b, k) == (h, LoadGtobPreflop(b).value[h])
  {
    var recs := DebugRecords(b, U16(b, 7));
    MapOfFrom(recs, h);
  }

  /** Where both decoders accept a file they store the same hids; where
      the file is cut short inside a record the script raises, while
      `_load_gtob_preflop_v1` quietly returns an empty table. */
  lemma DecodersAgreeOnHids(b: Bytes, h: int)
    requires HasMagic(b) && |b| >= 9 && StreetDecodes(b)
    ensures V1WellFormed(b) ==>
      LoadGtobPreflop(b).Ok? && (h in LoadGtobPreflop(b).value <==> h in DecodePreflopV1(b))
    ensures !V1WellFormed(b) ==> LoadGtobPreflop(b) == Err(StructError) && DecodePreflopV1(b) == map[]
  {
    if V1WellFormed(b) {
      SameHids(b, h);
    }
  }

  lemma SameHids(b: Bytes, h: int)
    requires V1WellFormed(b)
    ensures h in MapOf(DebugRecords(b, V1Count(b))) <==> h in MapOf(V1Records(b, V1Count(b)))
  {
    var n := V1Count(b);
    var d := DebugRecords(b, n);
    var v := V1Records(b, n);
    forall k | 0 <= k < n ensures d[k].0 == v[k].0 {
      assert d[k] == DebugRecord(b, k) && v[k] == V1Record(b, k);
    }
    SameFirsts(d, v, h);
  }

  /** Record lists with the same hids in the same places store the same hids. */
  lemma SameFirsts(d: seq<(int, Weights)>, v: seq<(int, Weights)>, h: int)
    requires |d| == |v| && forall k :: 0 <= k < |d| ==> d[k].0 == v[k].0
    ensures h in MapOf(d) <==> h in MapOf(v)
  {
    MapOfKeys(d, h);
    MapOfKeys(v, h);
    if h in MapOf(d) {
      var k :| 0 <= k < |d| && d[k].0 == h;
      assert v[k].0 == h;
    }
    if h in MapOf(v) {
      var k :| 0 <= k < |v| && v[k].0 == h;
      assert d[k].0 == h;
    }
  }

  // ---------------------------------------------------------------
  // test_hash_collision
  // ---------------------------------------------------------------

  /** Each label sits at the position `get_hand_index` gives it. */
  predicate AllIndexed(labels: seq<string>) {
    forall k :: 0 <= k < |labels| ==> IsHandLabel(labels[k]) && HandIndex(labels[k]) == k
  }

  /** `HAND_LABELS`: the pairs, then every rank pair high rank first,
      suited before offsuit, in exactly the numbering of `get_hand_index`. */
  method BuildHandLabels() returns (labels: seq<string>)
    ensures |labels| == 169 && AllIndexed(labels)
  {
    labels := seq(13, k requires 0 <= k < 13 => PairLabel(k));
    forall k | 0 <= k < 13 ensures IsHandLabel(labels[k]) && HandIndex(labels[k]) == k {
      PairIndex(k);
    }
    for i := 0 to 13
      invariant |labels| == 13 + 2 * RowStart(i) && AllIndexed(labels)
    {
      labels := AppendRow(labels, i);
    }
    assert RowStart(13) == 78;
  }

  /** The inner loop, over the ranks below rank `i`. */
  method AppendRow(labels: seq<string>, i: nat) returns (r: seq<string>)
    requires i < 13 && |labels| == 13 + 2 * RowStart(i) && AllIndexed(labels)
    ensures |r| == 13 + 2 * RowStart(i + 1) && AllIndexed(r)
    ensures r[..|labels|] == labels
  {
    r := labels;
    for j := i + 1 to 13
      invariant |r| == 13 + 2 * (RowStart(i) + (j - i - 1)) && AllIndexed(r)
      invariant r[..|labels|] == labels
    {
      NonPairIndex(i, j, 's');
      NonPairIndex(i, j, 'o');
      r := r + [NonPairLabel(i, j, 's'), NonPairLabel(i, j, 'o')];
    }
  }

  /** Positions of an indexed list hold different labels. */
  lemma IndexedDistinct(labels: seq<string>)
    requires AllIndexed(labels)
    ensures forall i, j :: 0 <= i < j < |labels| ==> labels[i] != labels[j]
  {
  }

  /** `{label: idx for idx, label in enumerate(labels)}` */
  function LabelToHid(labels: seq<string>): Dict<string, nat> {
    FromPairs(seq(|labels|, k requires 0 <= k < |labels| => (labels[k], k as nat)))
  }

  /** Over distinct labels, `LABEL_TO_HID[label]` is the label's position. */
  lemma LabelToHidLookup(labels: seq<string>, k: nat)
    requires forall i, j :: 0 <= i < j < |labels| ==> labels[i] != labels[j]
    requires k < |labels|
    ensures Lookup(LabelToHid(labels), labels[k]) == Some(k)
  {
    var ps := seq(|labels|, i requires 0 <= i < |labels| => (labels[i], i as nat));
    FromPairsDistinct(ps);
    LookupAt(ps, k);
  }

  /** `get_hid(label)` of each label, every one of which has an entry. */
  function HidsOf(labels: seq<string>, hidOf: Dict<string, nat>): (hs: seq<nat>)
    requires forall k :: 0 <= k < |labels| ==> HasKey(hidOf, labels[k])
    ensures |hs| == |labels|
  {
    seq(|labels|, k requires 0 <= k < |labels| => Lookup(hidOf, labels[k]).value)
  }

  /** `seen` after the first `n` labels: each hid met, with the first label that had it. */
  function SeenAfter(labels: seq<string>, hs: seq<nat>, n: nat): map<nat, string>
    requires n <= |labels| == |hs|
  {
    if n == 0 then map[]
    else
      var s := SeenAfter(labels, hs, n - 1);
      if hs[n - 1] in s then s else s[hs[n - 1] := labels[n - 1]]
  }

  /** `collisions` after the first `n` labels: each later label whose hid was already seen. */
  function CollisionsAfter(labels: seq<string>, hs: seq<nat>, n: nat): seq<(string, string, nat)>
    requires n <= |labels| == |hs|
  {
    if n == 0 then []
    else
      var s := SeenAfter(labels, hs, n - 1);
      var c := CollisionsAfter(labels, hs, n - 1);
      if hs[n - 1] in s then c + [(labels[n - 1], s[hs[n - 1]], hs[n - 1])] else c
  }

  /** `seen` holds exactly the hids met. */
  lemma {:induction false} SeenKeys(labels: seq<string>, hs: seq<nat>, n: nat, h: nat)
    requires n <= |labels| == |hs|
    ensures h in SeenAfter(labels, hs, n) <==> exists k :: 0 <= k < n && hs[k] == h
  {
    if n > 0 {
      SeenKeys(labels, hs, n - 1, h);
    }
  }

  /** Every label is either seen first or a collision. */
  lemma {:induction false} SeenPlusCollisions(labels: seq<string>, hs: seq<nat>, n: nat)
    requires n <= |labels| == |hs|
    ensures |SeenAfter(labels, hs, n)| + |CollisionsAfter(labels, hs, n)| == n
  {
    if n > 0 {
      SeenPlusCollisions(labels, hs, n - 1);
    }
  }

  /** There is no collision exactly when the hids met are pairwise different. */
  lemma {:induction false} NoCollisionIff(labels: seq<string>, hs: seq<nat>, n: nat)
    requires n <= |labels| == |hs|
    ensures CollisionsAfter(labels, hs, n) == [] <==> forall i, j :: 0 <= i < j < n ==> hs[i] != hs[j]
  {
    if n > 0 {
      NoCollisionIff(labels, hs, n - 1);
      SeenKeys(labels, hs, n - 1, hs[n - 1]);
      if CollisionsAfter(labels, hs, n - 1) != [] {
        assert |CollisionsAfter(labels, hs, n)| > 0;
      }
    }
  }

  /** The collision loop of `test_hash_collision`. */
  method FindCollisions(labels: seq<string>, hidOf: Dict<string, nat>)
    returns (seen: map<nat, string>, collisions: seq<(string, string, nat)>)
    requires forall k :: 0 <= k < |labels| ==> HasKey(hidOf, labels[k])
    ensures seen == SeenAfter(labels, HidsOf(labels, hidOf), |labels|)
    ensures collisions == CollisionsAfter(labels, HidsOf(labels, hidOf), |labels|)
  {
    ghost var hs := HidsOf(labels, hidOf);
    seen := map[];
    collisions := [];
    for k := 0 to |labels|
      invariant seen == SeenAfter(labels, hs, k)
      invariant collisions == CollisionsAfter(labels, hs, k)
    {
      var hid := Lookup(hidOf, labels[k]).value;
      if hid in seen {
        collisions := collisions + [(labels[k], seen[hid], hid)];
      } else {
        seen := seen[hid := labels[k]];
      }
    }
  }

  /** `test_hash_collision`: 169 labels, 169 distinct hids, no collision. */
  method TestHashCollision() returns (total: nat, unique: nat, collisions: seq<(string, string, nat)>)
    ensures total == 169 && unique == 169 && collisions == []
  {
    var labels := BuildHandLabels();
    IndexedDistinct(labels);
    var d := LabelToHid(labels);
    forall k | 0 <= k < |labels| ensures HasKey(d, labels[k]) {
      LabelToHidLookup(labels, k);
    }
    var seen;
    seen, collisions := FindCollisions(labels, d);
    ghost var hs := HidsOf(labels, d);
    forall k | 0 <= k < |labels| ensures hs[k] == k {
      LabelToHidLookup(labels, k);
    }
    NoCollisionIff(labels, hs, |labels|);
    SeenPlusCollisions(labels, hs, |labels|);
    total := |labels|;
    unique := |seen|;
  }
}
