/** What the three preflop lookup-table decoders share: bytes, the
    little-endian integers `struct.unpack("<H")` / `("<I")` read, the
    "GTOB" magic, the (fold, call, raise) weight triple, and the way a loop
    of `lut[hid] = ...` assignments builds a table (last writer wins). */
module LutBytes {

  type Byte = x: int | 0 <= x < 256
  type Bytes = seq<Byte>

  /** `b"GTOB"` */
  const Magic: Bytes := [71, 84, 79, 66]

  /** `f.read(4) == b"GTOB"`; a shorter file reads fewer bytes and fails it. */
  predicate HasMagic(b: Bytes) {
    |b| >= 4 && b[..4] == Magic
  }

  /** `struct.unpack("<H", b[p:p+2])` */
  function U16(b: Bytes, p: nat): (v: nat)
    requires p + 2 <= |b|
    ensures v < 0x1_0000
  {
    b[p] as int + 256 * b[p + 1] as int
  }

  /** `struct.unpack("<I", b[p:p+4])` */
  function U32(b: Bytes, p: nat): (v: nat)
    requires p + 4 <= |b|
    ensures v < 0x1_0000_0000
  {
    U16(b, p) + 0x1_0000 * U16(b, p + 2)
  }

  /** `struct.pack("<H", v)` */
  function PackU16(v: nat): (b: Bytes)
    requires v < 0x1_0000
    ensures |b| == 2
  {
    [v % 256, v / 256]
  }

  /** Packing and unpacking a 16-bit field are inverse. */
  lemma U16RoundTrip(v: nat, b: Bytes, p: nat)
    requires v < 0x1_0000 && p + 2 <= |b|
    ensures U16(PackU16(v), 0) == v
    ensures PackU16(U16(b, p)) == b[p..p + 2]
  {
  }

  /** The exceptions the two decoders without an `except` let escape:
      the failed `assert` on the magic, `struct.error` on a short read,
      and the `UnicodeDecodeError` of a street byte that is not UTF-8. */
  datatype ReadError = MagicAssertion | StructError | UnicodeDecodeError

  /** One table row, `{"fold": .., "call": .., "raise": ..}`. */
  datatype Weights = Weights(fold: real, call: real, raise: real)

  predicate InUnit(x: real) {
    0.0 <= x <= 1.0
  }

  predicate UnitWeights(w: Weights) {
    InUnit(w.fold) && InUnit(w.call) && InUnit(w.raise)
  }

  /** A probability distribution over the three actions. */
  predicate Normalised(w: Weights) {
    w.fold >= 0.0 && w.call >= 0.0 && w.raise >= 0.0 && w.fold + w.call + w.raise == 1.0
  }

  /** The table a sequence of `lut[hid] = w` assignments leaves behind. */
  function MapOf(recs: seq<(int, Weights)>): map<int, Weights> {
    if |recs| == 0 then map[]
    else MapOf(recs[..|recs| - 1])[recs[|recs| - 1].0 := recs[|recs| - 1].1]
  }

  /** One more assignment `lut[h] = w`. */
  lemma MapOfSnoc(recs: seq<(int, Weights)>, h: int, w: Weights)
    ensures MapOf(recs + [(h, w)]) == MapOf(recs)[h := w]
  {
    assert (recs + [(h, w)])[..|recs|] == recs;
  }

  /** The same assignment made to a table that already held rows. */
  lemma MergeSnoc(m: map<int, Weights>, recs: seq<(int, Weights)>, h: int, w: Weights)
    ensures (m + MapOf(recs))[h := w] == m + MapOf(recs + [(h, w)])
  {
    MapOfSnoc(recs, h, w);
  }

  /** Non-negative weights with a positive total, each divided by the
      total, form a distribution. */
  lemma ScaleToOne(f: real, c: real, r: real)
    requires f >= 0.0 && c >= 0.0 && r >= 0.0 && f + c + r > 0.0
    ensures Normalised(Weights(f / (f + c + r), c / (f + c + r), r / (f + c + r)))
  {
    var s := f + c + r;
    assert f / s + c / s + r / s == s / s;
  }

  /** The table holds exactly the hids that were assigned. */
  lemma {:induction false} MapOfKeys(recs: seq<(int, Weights)>, h: int)
    ensures h in MapOf(recs) <==> exists k :: 0 <= k < |recs| && recs[k].0 == h
  {
    if |recs| > 0 {
      var init := recs[..|recs| - 1];
      MapOfKeys(init, h);
      if exists k :: 0 <= k < |init| && init[k].0 == h {
        var k :| 0 <= k < |init| && init[k].0 == h;
        assert recs[k].0 == h;
      }
      if exists k :: 0 <= k < |recs| && recs[k].0 == h {
        var k :| 0 <= k < |recs| && recs[k].0 == h;
        if k < |init| {
          assert init[k].0 == h;
        }
      }
    }
  }

  /** A hid holds the weights of its last assignment. */
  lemma {:induction false} MapOfLast(recs: seq<(int, Weights)>, k: nat)
    requires k < |recs|
    requires forall m :: k < m < |recs| ==> recs[m].0 != recs[k].0
    ensures recs[k].0 in MapOf(recs) && MapOf(recs)[recs[k].0] == recs[k].1
  {
    var init := recs[..|recs| - 1];
    if k < |recs| - 1 {
      assert init[k] == recs[k];
      MapOfLast(init, k);
    }
  }

  /** Every stored row is the row of some assignment. */
  lemma {:induction false} MapOfFrom(recs: seq<(int, Weights)>, h: int)
    requires h in MapOf(recs)
    ensures exists k :: 0 <= k < |recs| && recs[k] == (h, MapOf(recs)[h])
  {
    var init := recs[..|recs| - 1];
    if recs[|recs| - 1].0 != h {
      MapOfFrom(init, h);
      var k :| 0 <= k < |init| && init[k] == (h, MapOf(init)[h]);
      assert recs[k] == init[k];
    }
  }

  /** The hids assigned. */
  function HidSet(recs: seq<(int, Weights)>): set<int> {
    set k | 0 <= k < |recs| :: recs[k].0
  }

  /** `len(lut)` is the number of distinct hids assigned. */
  lemma MapOfSize(recs: seq<(int, Weights)>)
    ensures MapOf(recs).Keys == HidSet(recs)
    ensures |MapOf(recs)| == |HidSet(recs)|
  {
    forall h ensures h in MapOf(recs) <==> h in HidSet(recs) {
      MapOfKeys(recs, h);
    }
    assert MapOf(recs).Keys == HidSet(recs);
  }

  /** The fixed eight-byte record of the two u16 decoders: hid, then the
      fold, call and raise counts, each `<H`, starting at byte `9 + 8 k`. */
  function Raw8(b: Bytes, k: nat): (r: (nat, nat, nat, nat))
    requires 9 + 8 * (k + 1) <= |b|
    ensures r.0 < 0x1_0000 && r.1 < 0x1_0000 && r.2 < 0x1_0000 && r.3 < 0x1_0000
  {
    var p := 9 + 8 * k;
    (U16(b, p), U16(b, p + 2), U16(b, p + 4), U16(b, p + 6))
  }
}
