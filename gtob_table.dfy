/** src/strategies/gtob_table.py: `GTOBTable`, a preflop table read from a
    "GTOB" file with a 12-byte header (magic, `<H` version, `<I` record
    count, `<H` padding) and 5-byte records (`<H` hid, then three weight
    bytes). */
module GtobTable {
  import opened Wrappers
  import opened LutBytes

  /** The record count of the header. */
  function HeaderCount(b: Bytes): nat
    requires |b| >= 12
  {
    U32(b, 6)
  }

  /** The records the loop reads: the header's count, or as many whole
      records as the file holds when it is shorter. */
  function RecordsRead(b: Bytes): (n: nat)
    requires |b| >= 12
    ensures n <= HeaderCount(b) && 12 + 5 * n <= |b|
    ensures n < HeaderCount(b) ==> |b| < 12 + 5 * (n + 1)
  {
    var whole := (|b| - 12) / 5;
    if HeaderCount(b) <= whole then HeaderCount(b) else whole
  }

  /** The three weight bytes of record `k` are all zero. */
  predicate ZeroRecord(b: Bytes, k: nat)
    requires 12 + 5 * (k + 1) <= |b|
  {
    var p := 12 + 5 * k;
    b[p + 2] as int + b[p + 3] as int + b[p + 4] as int == 0
  }

  /** Record `k` as the assignment it makes: each weight byte over 255. */
  function Record5(b: Bytes, k: nat): (r: (int, Weights))
    requires 12 + 5 * (k + 1) <= |b|
    ensures 0 <= r.0 < 0x1_0000 && UnitWeights(r.1)
  {
    var p := 12 + 5 * k;
    (U16(b, p), Weights(b[p + 2] as real / 255.0, b[p + 3] as real / 255.0, b[p + 4] as real / 255.0))
  }

  /** The assignments of the first `n` records, the all-zero ones skipped. */
  function TableRecords(b: Bytes, n: nat): seq<(int, Weights)>
    requires 12 + 5 * n <= |b|
  {
    if n == 0 then []
    else if ZeroRecord(b, n - 1) then TableRecords(b, n - 1)
    else TableRecords(b, n - 1) + [Record5(b, n - 1)]
  }

  /** `_load` on the file's bytes: a header shorter than 12 bytes is a
      `struct.error`, a wrong magic fails the assertion, and a short record
      ends the table without an error. */
  function Decode(b: Bytes): (r: Result<map<int, Weights>, ReadError>)
    ensures r.Ok? <==> |b| >= 12 && HasMagic(b)
    ensures r.Err? ==> (r.error == StructError <==> |b| < 12)
  {
    if |b| < 12 then Err(StructError)
    else if !HasMagic(b) then Err(MagicAssertion)
    else Ok(MapOf(TableRecords(b, RecordsRead(b))))
  }

  /** The table after `n` records holds exactly the hids of the non-zero ones. */
  lemma {:induction false} TableKeys(b: Bytes, n: nat, h: int)
    requires 12 + 5 * n <= |b|
    ensures h in MapOf(TableRecords(b, n)) <==> exists k :: 0 <= k < n && !ZeroRecord(b, k) && Record5(b, k).0 == h
  {
    if n > 0 {
      var init := TableRecords(b, n - 1);
      TableKeys(b, n - 1, h);
      if !ZeroRecord(b, n - 1) {
        MapOfSnoc(init, Record5(b, n - 1).0, Record5(b, n - 1).1);
      }
    }
  }

  /** Each row it holds is the row of a non-zero record among the first `n`. */
  lemma {:induction false} TableRows(b: Bytes, n: nat, h: int)
    requires 12 + 5 * n <= |b| && h in MapOf(TableRecords(b, n))
    ensures exists k :: 0 <= k < n && !ZeroRecord(b, k) && Record5(b, k) == (h, MapOf(TableRecords(b, n))[h])
  {
    var init := TableRecords(b, n - 1);
    if ZeroRecord(b, n - 1) {
      TableRows(b, n - 1, h);
    } else {
      var r := Record5(b, n - 1);
      MapOfSnoc(init, r.0, r.1);
      if r.0 != h {
        TableRows(b, n - 1, h);
      }
    }
  }

  /** A hid holds the row of the last non-zero record among the first `n` that carries it. */
  lemma {:induction false} TableLast(b: Bytes, n: nat, k: nat)
    requires 12 + 5 * n <= |b| && k < n && !ZeroRecord(b, k)
    requires forall m :: k < m < n && !ZeroRecord(b, m) ==> Record5(b, m).0 != Record5(b, k).0
    ensures Record5(b, k).0 in MapOf(TableRecords(b, n))
    ensures MapOf(TableRecords(b, n))[Record5(b, k).0] == Record5(b, k).1
  {
    var init := TableRecords(b, n - 1);
    if k < n - 1 {
      TableLast(b, n - 1, k);
    }
    if !ZeroRecord(b, n - 1) {
      MapOfSnoc(init, Record5(b, n - 1).0, Record5(b, n - 1).1);
    }
  }

  /** Every stored row is the row of a record that was read: a 16-bit
      hid and weights in [0, 1], not all zero. */
  lemma DecodeRows(b: Bytes, h: int)
    requires Decode(b).Ok? && h in Decode(b).value
    ensures exists k :: 0 <= k < RecordsRead(b) && !ZeroRecord(b, k) && Record5(b, k) == (h, Decode(b).value[h])
    ensures 0 <= h < 0x1_0000 && UnitWeights(Decode(b).value[h])
  {
    TableRows(b, RecordsRead(b), h);
  }

  /** A hid is stored exactly when some record that was read carries it
      and is not all zero. */
  lemma DecodeKeys(b: Bytes, h: int)
    requires Decode(b).Ok?
    ensures h in Decode(b).value <==> exists k :: 0 <= k < RecordsRead(b) && !ZeroRecord(b, k) && Record5(b, k).0 == h
  {
    TableKeys(b, RecordsRead(b), h);
  }

  /** A later record with the same hid overwrites an earlier one. */
  lemma DecodeLast(b: Bytes, k: nat)
    requires Decode(b).Ok? && k < RecordsRead(b) && !ZeroRecord(b, k)
    requires forall m :: k < m < RecordsRead(b) && !ZeroRecord(b, m) ==> Record5(b, m).0 != Record5(b, k).0
    ensures Record5(b, k).0 in Decode(b).value && Decode(b).value[Record5(b, k).0] == Record5(b, k).1
  {
    TableLast(b, RecordsRead(b), k);
  }

  /** `len(lut)` counts the distinct hids stored. */
  lemma DecodeSize(b: Bytes)
    requires Decode(b).Ok?
    ensures |Decode(b).value| == |HidSet(TableRecords(b, RecordsRead(b)))|
  {
    MapOfSize(TableRecords(b, RecordsRead(b)));
  }

  /** `GTOBTable`: the table and the queries on it. */
  class Table {
    var lut: map<int, Weights>

    constructor()
      ensures lut == map[]
    {
      lut := map[];
    }

    /** `GTOBTable(path)` on the file's bytes: the table `_load` builds, or
        the exception it raises. */
    static method Open(data: Bytes) returns (r: Result<Table, ReadError>)
      ensures r.Ok? <==> Decode(data).Ok?
      ensures r.Err? ==> r.error == Decode(data).error
      ensures r.Ok? ==> fresh(r.value) && r.value.lut == Decode(data).value
    {
      var t := new Table();
      var res := t.Load(data);
      if res.Err? {
        return Err(res.error);
      }
      assert t.lut == map[] + Decode(data).value;
      return Ok(t);
    }

    /** `_load`: the header is checked before anything is stored, so a
        failure leaves the table as it was. */
    method Load(data: Bytes) returns (r: Result<(), ReadError>)
      modifies this
      ensures Decode(data).Err? ==> r == Err(Decode(data).error) && lut == old(lut)
      ensures Decode(data).Ok? ==> r == Ok(()) && lut == old(lut) + Decode(data).value
    {
      if |data| < 12 {
        return Err(StructError);
      }
      if !HasMagic(data) {
        return Err(MagicAssertion);
      }
      var count := HeaderCount(data);
      ghost var start := lut;
      var k := 0;
      while k < count
        invariant k <= count && 12 + 5 * k <= |data|
        invariant lut == start + MapOf(TableRecords(data, k))
      {
        if |data| < 12 + 5 * (k + 1) {
          break;
        }
        var hid, row, zero := ReadRecord(data, k);
        TableStep(start, data, k);
        if !zero {
          lut := lut[hid := row];
        }
        k := k + 1;
      }
      ReadAll(data, k);
      return Ok(());
    }

    /** `get(hid, default)` */
    function Get(hid: int, default: Option<Weights>): (r: Option<Weights>)
      reads this
      ensures Contains(hid) ==> r == Some(lut[hid])
      ensures !Contains(hid) ==> r == default
    {
      if hid in lut then Some(lut[hid]) else default
    }

    /** `hid in table` */
    predicate Contains(hid: int)
      reads this
    {
      hid in lut
    }

    /** `len(table)` */
    function Len(): (n: nat)
      reads this
      ensures n == 0 <==> forall h :: h !in lut
    {
      NonEmptyMap(lut);
      assert |lut| == 0 ==> lut == map[];
      |lut|
    }
  }

  /** Reads record `k`: its hid and row, and whether its weights are all zero. */
  method ReadRecord(data: Bytes, k: nat) returns (hid: int, row: Weights, zero: bool)
    requires 12 + 5 * (k + 1) <= |data|
    ensures zero == ZeroRecord(data, k)
    ensures (hid, row) == Record5(data, k)
  {
    var p := 12 + 5 * k;
    hid := data[p] as int + 256 * data[p + 1] as int;
    var qf, qc, qr := data[p + 2], data[p + 3], data[p + 4];
    zero := qf as int + qc as int + qr as int == 0;
    row := Weights(qf as real / 255.0, qc as real / 255.0, qr as real / 255.0);
  }

  /** One more record either leaves the merged table alone or assigns its row. */
  lemma TableStep(start: map<int, Weights>, b: Bytes, k: nat)
    requires 12 + 5 * (k + 1) <= |b|
    ensures ZeroRecord(b, k) ==> start + MapOf(TableRecords(b, k + 1)) == start + MapOf(TableRecords(b, k))
    ensures !ZeroRecord(b, k) ==>
      start + MapOf(TableRecords(b, k + 1)) == (start + MapOf(TableRecords(b, k)))[Record5(b, k).0 := Record5(b, k).1]
  {
    if !ZeroRecord(b, k) {
      MergeSnoc(start, TableRecords(b, k), Record5(b, k).0, Record5(b, k).1);
    }
  }

  /** A map without keys is empty. */
  lemma NonEmptyMap(m: map<int, Weights>)
    ensures (forall h :: h !in m) ==> |m| == 0
  {
    if forall h :: h !in m {
      assert m == map[];
    }
  }

  /** The loop stops after exactly `RecordsRead` records. */
  lemma ReadAll(b: Bytes, k: nat)
    requires |b| >= 12 && k <= HeaderCount(b) && 12 + 5 * k <= |b|
    requires k < HeaderCount(b) ==> |b| < 12 + 5 * (k + 1)
    ensures k == RecordsRead(b)
  {
  }

  /** An opened table answers `get`, `in` and `len` from the records of
      its file. */
  lemma OpenedQueries(b: Bytes, t: Table, h: int, d: Option<Weights>)
    requires Decode(b).Ok? && t.lut == Decode(b).value
    ensures t.Contains(h) <==> exists k :: 0 <= k < RecordsRead(b) && !ZeroRecord(b, k) && Record5(b, k).0 == h
    ensures t.Contains(h) ==> t.Get(h, d).Some? && UnitWeights(t.Get(h, d).value)
    ensures t.Len() == |HidSet(TableRecords(b, RecordsRead(b)))|
  {
    DecodeKeys(b, h);
    if t.Contains(h) {
      DecodeRows(b, h);
    }
    DecodeSize(b);
  }
}
